/**
 * The transaction ledger and balance reconciler of the transactions API route:
 * creating, editing and deleting a transaction applies, reverses, or reverses
 * and re-applies its effect on the balances of one or two storage accounts,
 * and listing filters the ledger and orders it by date, newest first.
 */
module Reconciler {
  import opened Common

  // ---------------------------------------------------------------------------
  // Outcomes
  // ---------------------------------------------------------------------------

  /** Why a request failed: 400 for a missing id, 500 when the database rejects it. */
  datatype Failure =
    | IdRequired     // DELETE without an id
    | InvalidQuery   // PUT without an id: the lookup itself is rejected
    | NotFound       // the record to update or delete does not exist
    | DuplicateId    // the generated id is already taken

  datatype Result<T> = Ok(value: T) | Err(failure: Failure)

  function StatusCode(f: Failure): (code: int)
    ensures code == 400 <==> f == IdRequired
    ensures code == 400 || code == 500
  {
    if f == IdRequired then 400 else 500
  }

  // ---------------------------------------------------------------------------
  // Balances
  // ---------------------------------------------------------------------------

  predicate NonNegative(b: map<string, int>)
  {
    forall k :: k in b ==> b[k] >= 0
  }

  /**
   * The read-modify-write of one storage balance: add or subtract `amount` and
   * store the result floored at zero. An unknown account is left alone.
   */
  function UpdateBalance(b: map<string, int>, id: string, amount: int, isAdd: bool): (r: map<string, int>)
    ensures r.Keys == b.Keys
    ensures forall k :: k in b && k != id ==> r[k] == b[k]
    ensures id in b ==> r[id] >= 0
    ensures id in b && isAdd && b[id] + amount >= 0 ==> r[id] == b[id] + amount
    ensures id in b && !isAdd && b[id] - amount >= 0 ==> r[id] == b[id] - amount
    ensures id in b && isAdd && b[id] + amount < 0 ==> r[id] == 0
    ensures id in b && !isAdd && b[id] - amount < 0 ==> r[id] == 0
    ensures id !in b ==> r == b
    ensures NonNegative(b) ==> NonNegative(r)
  {
    if id in b then
      var newBalance := if isAdd then b[id] + amount else b[id] - amount;
      b[id := Max(0, newBalance)]
    else
      b
  }

  // ---------------------------------------------------------------------------
  // Effects of a transaction on balances
  // ---------------------------------------------------------------------------

  /**
   * The unclamped change a transaction of the given type makes to account `k`,
   * each leg counted independently: income credits `to`, expense and savings
   * debit `from`, a transfer debits `from` and credits `to`.
   */
  function EffectDelta(txType: string, amount: int, from: Option<string>, to: Option<string>, k: string): int
  {
    var credit := if Present(to) && to.value == k then amount else 0;
    var debit := if Present(from) && from.value == k then amount else 0;
    if txType == INCOME then credit
    else if txType == EXPENSE || txType == SAVINGS then -debit
    else if txType == TRANSFER then credit - debit
    else 0
  }

  function InputDelta(body: TxInput, k: string): int
  {
    EffectDelta(body.txType, body.amount, body.fromStorageTypeId, body.toStorageTypeId, k)
  }

  function RecordDelta(tx: Transaction, k: string): int
  {
    EffectDelta(tx.txType, tx.amount, tx.fromStorageTypeId, tx.toStorageTypeId, k)
  }

  /** The accounts a transaction names as legs for its type. */
  function Legs(txType: string, from: Option<string>, to: Option<string>): (s: set<string>)
    ensures forall k :: k in s ==> (Present(from) && from.value == k) || (Present(to) && to.value == k)
  {
    (if (txType == INCOME || txType == TRANSFER) && Present(to) then {to.value} else {})
    + (if (txType == EXPENSE || txType == SAVINGS || txType == TRANSFER) && Present(from) then {from.value} else {})
  }

  /** A transfer that names exactly one of its two accounts. */
  predicate OneLegTransfer(body: TxInput)
  {
    body.txType == TRANSFER && Present(body.fromStorageTypeId) != Present(body.toStorageTypeId)
  }

  /**
   * POST: the effect of creating a transaction. A transfer moves money only
   * when both accounts are given; every other leg is skipped when its id is
   * missing or empty; an unknown type touches nothing.
   */
  function CreateEffect(b: map<string, int>, body: TxInput): (r: map<string, int>)
    ensures r.Keys == b.Keys
    ensures NonNegative(b) ==> NonNegative(r)
    ensures forall k :: k in b && k !in Legs(body.txType, body.fromStorageTypeId, body.toStorageTypeId) ==> r[k] == b[k]
    ensures OneLegTransfer(body) ==> r == b
    ensures body.txType !in {INCOME, EXPENSE, SAVINGS, TRANSFER} ==> r == b
  {
    var a := body.amount;
    var from := body.fromStorageTypeId;
    var to := body.toStorageTypeId;
    if body.txType == INCOME then
      if Present(to) then UpdateBalance(b, to.value, a, true) else b
    else if body.txType == EXPENSE then
      if Present(from) then UpdateBalance(b, from.value, a, false) else b
    else if body.txType == SAVINGS then
      if Present(from) then UpdateBalance(b, from.value, a, false) else b
    else if body.txType == TRANSFER then
      if Present(from) && Present(to) then
        UpdateBalance(UpdateBalance(b, from.value, a, false), to.value, a, true)
      else b
    else
      b
  }

  /**
   * PUT, second half: apply the new effect. Unlike POST, the two legs of a
   * transfer are applied independently, each only if its id is given.
   */
  function UpdateEffect(b: map<string, int>, body: TxInput): (r: map<string, int>)
    ensures r.Keys == b.Keys
    ensures NonNegative(b) ==> NonNegative(r)
    ensures forall k :: k in b && k !in Legs(body.txType, body.fromStorageTypeId, body.toStorageTypeId) ==> r[k] == b[k]
    ensures body.txType !in {INCOME, EXPENSE, SAVINGS, TRANSFER} ==> r == b
  {
    var a := body.amount;
    var from := body.fromStorageTypeId;
    var to := body.toStorageTypeId;
    if body.txType == INCOME && Present(to) then
      UpdateBalance(b, to.value, a, true)
    else if body.txType == EXPENSE && Present(from) then
      UpdateBalance(b, from.value, a, false)
    else if body.txType == SAVINGS && Present(from) then
      UpdateBalance(b, from.value, a, false)
    else if body.txType == TRANSFER then
      var b1 := if Present(from) then UpdateBalance(b, from.value, a, false) else b;
      if Present(to) then UpdateBalance(b1, to.value, a, true) else b1
    else
      b
  }

  /**
   * PUT, first half, and DELETE: undo the effect of a stored transaction with
   * its stored amount and accounts; transfer legs are undone independently.
   */
  function ReverseEffect(b: map<string, int>, tx: Transaction): (r: map<string, int>)
    ensures r.Keys == b.Keys
    ensures NonNegative(b) ==> NonNegative(r)
    ensures forall k :: k in b && k !in Legs(tx.txType, tx.fromStorageTypeId, tx.toStorageTypeId) ==> r[k] == b[k]
    ensures tx.txType !in {INCOME, EXPENSE, SAVINGS, TRANSFER} ==> r == b
  {
    var a := tx.amount;
    var from := tx.fromStorageTypeId;
    var to := tx.toStorageTypeId;
    if tx.txType == INCOME && Present(to) then
      UpdateBalance(b, to.value, a, false)
    else if tx.txType == EXPENSE && Present(from) then
      UpdateBalance(b, from.value, a, true)
    else if tx.txType == SAVINGS && Present(from) then
      UpdateBalance(b, from.value, a, true)
    else if tx.txType == TRANSFER then
      var b1 := if Present(from) then UpdateBalance(b, from.value, a, true) else b;
      if Present(to) then UpdateBalance(b1, to.value, a, false) else b1
    else
      b
  }

  // ---------------------------------------------------------------------------
  // When no leg is clamped
  // ---------------------------------------------------------------------------

  /** Applying legs independently never drives a debited account below zero. */
  predicate NoClampOnApply(b: map<string, int>, txType: string, amount: int, from: Option<string>)
  {
    && amount >= 0
    && NonNegative(b)
    && ((txType == EXPENSE || txType == SAVINGS || txType == TRANSFER) && Present(from) && from.value in b
        ==> b[from.value] >= amount)
  }

  /** Reversing never drives a previously credited account below zero. */
  predicate NoClampOnReverse(b: map<string, int>, tx: Transaction)
  {
    var from := tx.fromStorageTypeId;
    var to := tx.toStorageTypeId;
    && tx.amount >= 0
    && NonNegative(b)
    && (tx.txType == INCOME && Present(to) && to.value in b ==> b[to.value] >= tx.amount)
    && (tx.txType == TRANSFER && Present(to) && to.value in b && !(Present(from) && from.value == to.value)
        ==> b[to.value] >= tx.amount)
  }

  /** The transfer case of UpdateEffectExact: its two legs applied one after the other. */
  lemma TransferApplyExact(b: map<string, int>, body: TxInput)
    requires body.txType == TRANSFER
    requires NoClampOnApply(b, body.txType, body.amount, body.fromStorageTypeId)
    ensures forall k :: k in b ==> UpdateEffect(b, body)[k] == b[k] + InputDelta(body, k)
  {
    var from := body.fromStorageTypeId;
    var a := body.amount;
    var b1 := if Present(from) then UpdateBalance(b, from.value, a, false) else b;
    assert NonNegative(b1);
    forall k | k in b ensures UpdateEffect(b, body)[k] == b[k] + InputDelta(body, k) {
      if Present(from) && from.value == k {
        assert b1[k] == b[k] - a;
      } else {
        assert b1[k] == b[k];
      }
    }
  }

  lemma {:induction false} UpdateEffectExact(b: map<string, int>, body: TxInput)
    requires NoClampOnApply(b, body.txType, body.amount, body.fromStorageTypeId)
    ensures forall k :: k in b ==> UpdateEffect(b, body)[k] == b[k] + InputDelta(body, k)
  {
    if body.txType == TRANSFER {
      TransferApplyExact(b, body);
    } else if body.txType == INCOME {
    } else if body.txType == EXPENSE || body.txType == SAVINGS {
    }
  }

  lemma {:induction false} CreateEffectExact(b: map<string, int>, body: TxInput)
    requires NoClampOnApply(b, body.txType, body.amount, body.fromStorageTypeId)
    requires !OneLegTransfer(body)
    ensures forall k :: k in b ==> CreateEffect(b, body)[k] == b[k] + InputDelta(body, k)
  {
    UpdateEffectExact(b, body);
    assert CreateEffect(b, body) == UpdateEffect(b, body);
  }

  /** The transfer case of ReverseEffectExact: its two legs undone one after the other. */
  lemma TransferReverseExact(b: map<string, int>, tx: Transaction)
    requires tx.txType == TRANSFER
    requires NoClampOnReverse(b, tx)
    ensures forall k :: k in b ==> ReverseEffect(b, tx)[k] == b[k] - RecordDelta(tx, k)
  {
    var from := tx.fromStorageTypeId;
    var a := tx.amount;
    var b1 := if Present(from) then UpdateBalance(b, from.value, a, true) else b;
    forall k | k in b ensures ReverseEffect(b, tx)[k] == b[k] - RecordDelta(tx, k) {
      if Present(from) && from.value == k {
        assert b1[k] == b[k] + a;
      } else {
        assert b1[k] == b[k];
      }
    }
  }

  lemma {:induction false} ReverseEffectExact(b: map<string, int>, tx: Transaction)
    requires NoClampOnReverse(b, tx)
    ensures forall k :: k in b ==> ReverseEffect(b, tx)[k] == b[k] - RecordDelta(tx, k)
  {
    if tx.txType == TRANSFER {
      TransferReverseExact(b, tx);
    } else if tx.txType == INCOME {
    } else if tx.txType == EXPENSE || tx.txType == SAVINGS {
    }
  }

  // ---------------------------------------------------------------------------
  // Every leg, clamped or not
  // ---------------------------------------------------------------------------

  /**
   * POST on each leg it touches: the account ends at its old balance plus or
   * minus the amount, floored at zero; a transfer into its own source is
   * floored twice.
   */
  lemma CreateEffectLegs(b: map<string, int>, body: TxInput)
    ensures var a := body.amount;
      var from := body.fromStorageTypeId;
      var to := body.toStorageTypeId;
      var r := CreateEffect(b, body);
      && (body.txType == INCOME && Present(to) && to.value in b ==> r[to.value] == Max(0, b[to.value] + a))
      && ((body.txType == EXPENSE || body.txType == SAVINGS) && Present(from) && from.value in b
          ==> r[from.value] == Max(0, b[from.value] - a))
      && (body.txType == TRANSFER && Present(from) && Present(to) && from.value != to.value && from.value in b
          ==> r[from.value] == Max(0, b[from.value] - a))
      && (body.txType == TRANSFER && Present(from) && Present(to) && from.value != to.value && to.value in b
          ==> r[to.value] == Max(0, b[to.value] + a))
      && (body.txType == TRANSFER && Present(from) && Present(to) && from.value == to.value && from.value in b
          ==> r[from.value] == Max(0, Max(0, b[from.value] - a) + a))
  {
  }

  /** PUT's re-application on each leg; a transfer's legs apply even when the other is missing. */
  lemma UpdateEffectLegs(b: map<string, int>, body: TxInput)
    ensures var a := body.amount;
      var from := body.fromStorageTypeId;
      var to := body.toStorageTypeId;
      var r := UpdateEffect(b, body);
      && (body.txType == INCOME && Present(to) && to.value in b ==> r[to.value] == Max(0, b[to.value] + a))
      && ((body.txType == EXPENSE || body.txType == SAVINGS) && Present(from) && from.value in b
          ==> r[from.value] == Max(0, b[from.value] - a))
      && (body.txType == TRANSFER && Present(from) && from.value in b && !(Present(to) && to.value == from.value)
          ==> r[from.value] == Max(0, b[from.value] - a))
      && (body.txType == TRANSFER && Present(to) && to.value in b && !(Present(from) && from.value == to.value)
          ==> r[to.value] == Max(0, b[to.value] + a))
      && (body.txType == TRANSFER && Present(from) && Present(to) && from.value == to.value && from.value in b
          ==> r[from.value] == Max(0, Max(0, b[from.value] - a) + a))
  {
  }

  /** The reversal on each leg of a stored record: credits are taken back and debits refunded, each floored at zero. */
  lemma ReverseEffectLegs(b: map<string, int>, tx: Transaction)
    ensures var a := tx.amount;
      var from := tx.fromStorageTypeId;
      var to := tx.toStorageTypeId;
      var r := ReverseEffect(b, tx);
      && (tx.txType == INCOME && Present(to) && to.value in b ==> r[to.value] == Max(0, b[to.value] - a))
      && ((tx.txType == EXPENSE || tx.txType == SAVINGS) && Present(from) && from.value in b
          ==> r[from.value] == Max(0, b[from.value] + a))
      && (tx.txType == TRANSFER && Present(from) && from.value in b && !(Present(to) && to.value == from.value)
          ==> r[from.value] == Max(0, b[from.value] + a))
      && (tx.txType == TRANSFER && Present(to) && to.value in b && !(Present(from) && from.value == to.value)
          ==> r[to.value] == Max(0, b[to.value] - a))
      && (tx.txType == TRANSFER && Present(from) && Present(to) && from.value == to.value && from.value in b
          ==> r[from.value] == Max(0, Max(0, b[from.value] + a) - a))
  {
  }

  // ---------------------------------------------------------------------------
  // Stored records
  // ---------------------------------------------------------------------------

  /** An optional id as the routes store it: empty or missing becomes null. */
  function NullIfEmpty(o: Option<string>): (r: Option<string>)
    ensures r.Some? <==> Present(o)
    ensures r.Some? ==> r == o
  {
    if Present(o) then o else None
  }

  /** A record in the form the routes write it: no reference is the empty string. */
  predicate Canonical(tx: Transaction)
  {
    && (tx.description.Some? ==> tx.description.value != "")
    && (tx.familyMemberId.Some? ==> tx.familyMemberId.value != "")
    && (tx.savingsCategoryId.Some? ==> tx.savingsCategoryId.value != "")
    && (tx.expenseCategoryId.Some? ==> tx.expenseCategoryId.value != "")
    && (tx.fromStorageTypeId.Some? ==> tx.fromStorageTypeId.value != "")
    && (tx.toStorageTypeId.Some? ==> tx.toStorageTypeId.value != "")
  }

  /** The record POST stores: empty references become null, a missing date becomes now. */
  function Normalize(id: string, body: TxInput, now: DateTime): (tx: Transaction)
    ensures Canonical(tx)
    ensures tx.id == id && tx.txType == body.txType && tx.amount == body.amount
    ensures tx.date == (if body.date.Some? then body.date.value else now)
    ensures tx.description.Some? <==> Present(body.description)
    ensures tx.familyMemberId.Some? <==> Present(body.familyMemberId)
    ensures tx.savingsCategoryId.Some? <==> Present(body.savingsCategoryId)
    ensures tx.expenseCategoryId.Some? <==> Present(body.expenseCategoryId)
    ensures tx.fromStorageTypeId.Some? <==> Present(body.fromStorageTypeId)
    ensures tx.toStorageTypeId.Some? <==> Present(body.toStorageTypeId)
    ensures tx.description.Some? ==> tx.description == body.description
    ensures tx.familyMemberId.Some? ==> tx.familyMemberId == body.familyMemberId
    ensures tx.savingsCategoryId.Some? ==> tx.savingsCategoryId == body.savingsCategoryId
    ensures tx.expenseCategoryId.Some? ==> tx.expenseCategoryId == body.expenseCategoryId
    ensures tx.fromStorageTypeId.Some? ==> tx.fromStorageTypeId == body.fromStorageTypeId
    ensures tx.toStorageTypeId.Some? ==> tx.toStorageTypeId == body.toStorageTypeId
    ensures forall k :: RecordDelta(tx, k) == InputDelta(body, k)
  {
    Transaction(
      id, body.txType, body.amount,
      NullIfEmpty(body.description),
      if body.date.Some? then body.date.value else now,
      NullIfEmpty(body.familyMemberId),
      NullIfEmpty(body.savingsCategoryId),
      NullIfEmpty(body.expenseCategoryId),
      NullIfEmpty(body.fromStorageTypeId),
      NullIfEmpty(body.toStorageTypeId))
  }

  /** The record PUT writes over `old`: like POST, except a missing date keeps the old one. */
  function NormalizeUpdate(prev: Transaction, body: TxInput): (tx: Transaction)
    ensures Canonical(tx)
    ensures tx.id == prev.id
    ensures tx.date == (if body.date.Some? then body.date.value else prev.date)
    ensures forall k :: RecordDelta(tx, k) == InputDelta(body, k)
  {
    Normalize(prev.id, body, prev.date)
  }

  // ---------------------------------------------------------------------------
  // Reversibility
  // ---------------------------------------------------------------------------

  /**
   * Create then delete restores every balance, provided no leg was clamped and
   * the transaction is not a transfer naming only one account.
   */
  lemma {:induction false} CreateThenDeleteRestores(b: map<string, int>, body: TxInput, id: string, now: DateTime)
    requires NoClampOnApply(b, body.txType, body.amount, body.fromStorageTypeId)
    requires !OneLegTransfer(body)
    ensures ReverseEffect(CreateEffect(b, body), Normalize(id, body, now)) == b
  {
    var tx := Normalize(id, body, now);
    var b1 := CreateEffect(b, body);
    CreateEffectExact(b, body);
    ApplyThenReverseFits(b, body, tx);
    ReverseEffectExact(b1, tx);
    MapsEqual(ReverseEffect(b1, tx), b);
  }

  /** Update's apply step followed by delete restores every balance when nothing is clamped. */
  lemma {:induction false} ApplyThenDeleteRestores(b: map<string, int>, body: TxInput, prev: Transaction)
    requires NoClampOnApply(b, body.txType, body.amount, body.fromStorageTypeId)
    ensures ReverseEffect(UpdateEffect(b, body), NormalizeUpdate(prev, body)) == b
  {
    var tx := NormalizeUpdate(prev, body);
    var b1 := UpdateEffect(b, body);
    UpdateEffectExact(b, body);
    ApplyThenReverseFits(b, body, tx);
    ReverseEffectExact(b1, tx);
    MapsEqual(ReverseEffect(b1, tx), b);
  }

  lemma {:induction false} ApplyThenReverseFits(b: map<string, int>, body: TxInput, tx: Transaction)
    requires NoClampOnApply(b, body.txType, body.amount, body.fromStorageTypeId)
    requires forall k :: k in b ==> UpdateEffect(b, body)[k] == b[k] + InputDelta(body, k)
    requires tx.txType == body.txType && tx.amount == body.amount
    requires forall k :: RecordDelta(tx, k) == InputDelta(body, k)
    requires tx.fromStorageTypeId == NullIfEmpty(body.fromStorageTypeId)
    requires tx.toStorageTypeId == NullIfEmpty(body.toStorageTypeId)
    ensures NoClampOnReverse(UpdateEffect(b, body), tx)
    ensures CreateEffect(b, body) == UpdateEffect(b, body) ==> NoClampOnReverse(CreateEffect(b, body), tx)
  {
    var b1 := UpdateEffect(b, body);
    assert NonNegative(b1);
    var to := tx.toStorageTypeId;
    if to.Some? && to.value in b {
      assert b1[to.value] == b[to.value] + InputDelta(body, to.value);
    }
  }

  lemma MapsEqual(m1: map<string, int>, m2: map<string, int>)
    requires m1.Keys == m2.Keys
    requires forall k :: k in m1 ==> m1[k] == m2[k]
    ensures m1 == m2
  {
  }

  /**
   * Editing a transaction without changing its type or accounts moves each
   * leg by exactly the difference between the new and the old amount.
   */
  lemma {:induction false} UpdateNetChange(b: map<string, int>, prev: Transaction, body: TxInput)
    requires body.txType == prev.txType
    requires prev.fromStorageTypeId == NullIfEmpty(body.fromStorageTypeId)
    requires prev.toStorageTypeId == NullIfEmpty(body.toStorageTypeId)
    requires NoClampOnReverse(b, prev)
    requires NoClampOnApply(ReverseEffect(b, prev), body.txType, body.amount, body.fromStorageTypeId)
    ensures forall k :: k in b ==>
      UpdateEffect(ReverseEffect(b, prev), body)[k]
        == b[k] + EffectDelta(prev.txType, body.amount - prev.amount, prev.fromStorageTypeId, prev.toStorageTypeId, k)
  {
    var b1 := ReverseEffect(b, prev);
    ReverseEffectExact(b, prev);
    UpdateEffectExact(b1, body);
    forall k | k in b
      ensures UpdateEffect(b1, body)[k]
        == b[k] + EffectDelta(prev.txType, body.amount - prev.amount, prev.fromStorageTypeId, prev.toStorageTypeId, k)
    {
      assert b1[k] == b[k] - RecordDelta(prev, k);
      assert InputDelta(body, k) == EffectDelta(prev.txType, body.amount, prev.fromStorageTypeId, prev.toStorageTypeId, k);
      EffectDeltaLinear(prev.txType, body.amount, prev.amount, prev.fromStorageTypeId, prev.toStorageTypeId, k);
    }
  }

  /** The unclamped change is linear in the amount. */
  lemma EffectDeltaLinear(txType: string, a1: int, a2: int, from: Option<string>, to: Option<string>, k: string)
    ensures EffectDelta(txType, a1, from, to, k) - EffectDelta(txType, a2, from, to, k)
      == EffectDelta(txType, a1 - a2, from, to, k)
  {
  }

  /**
   * Create A, then edit it into B: the balances are those a single create of B
   * would have produced, when nothing is clamped and neither is a one-account transfer.
   */
  lemma {:induction false} CreateThenUpdateActsAsSingleCreate(
    b: map<string, int>, first: TxInput, second: TxInput, id: string, now: DateTime)
    requires NoClampOnApply(b, first.txType, first.amount, first.fromStorageTypeId)
    requires NoClampOnApply(b, second.txType, second.amount, second.fromStorageTypeId)
    requires !OneLegTransfer(first) && !OneLegTransfer(second)
    ensures UpdateEffect(ReverseEffect(CreateEffect(b, first), Normalize(id, first, now)), second)
      == CreateEffect(b, second)
  {
    CreateThenDeleteRestores(b, first, id, now);
    assert CreateEffect(b, second) == UpdateEffect(b, second);
  }

  // ---------------------------------------------------------------------------
  // Conservation, and the two round trips that fail: a clamped leg and a one-account transfer
  // ---------------------------------------------------------------------------

  /** A transfer between two distinct known accounts with enough funds moves money without creating any. */
  lemma TransferConserves(b: map<string, int>, body: TxInput)
    requires body.txType == TRANSFER
    requires Present(body.fromStorageTypeId) && Present(body.toStorageTypeId)
    requires body.fromStorageTypeId.value != body.toStorageTypeId.value
    requires body.fromStorageTypeId.value in b && body.toStorageTypeId.value in b
    requires 0 <= body.amount <= b[body.fromStorageTypeId.value] && b[body.toStorageTypeId.value] >= 0
    ensures var r := CreateEffect(b, body);
      var from := body.fromStorageTypeId.value;
      var to := body.toStorageTypeId.value;
      && r[from] == b[from] - body.amount
      && r[to] == b[to] + body.amount
      && r[from] + r[to] == b[from] + b[to]
  {
  }

  /** POST ignores a transfer naming one account; PUT still applies that single leg. */
  lemma OneLegTransferAsymmetry(b: map<string, int>, body: TxInput)
    requires OneLegTransfer(body)
    ensures CreateEffect(b, body) == b
    ensures Present(body.fromStorageTypeId)
      ==> UpdateEffect(b, body) == UpdateBalance(b, body.fromStorageTypeId.value, body.amount, false)
    ensures Present(body.toStorageTypeId)
      ==> UpdateEffect(b, body) == UpdateBalance(b, body.toStorageTypeId.value, body.amount, true)
  {
  }

  /**
   * The clamp makes create then delete irreversible: income 500000 into an
   * empty account, expense 700000 from it (clamped to 0), then deleting the
   * expense leaves 700000 instead of 500000.
   */
  lemma ClampBreaksRoundTrip()
    ensures var now := DateTime(2025, 1, 1, 0);
      var income := TxInput(INCOME, 500000, None, None, None, None, None, None, Some("A"));
      var expense := TxInput(EXPENSE, 700000, None, None, None, None, None, Some("A"), None);
      var b1 := CreateEffect(map["A" := 0], income);
      var b2 := CreateEffect(b1, expense);
      var b3 := ReverseEffect(b2, Normalize("e", expense, now));
      b1["A"] == 500000 && b2["A"] == 0 && b3["A"] == 700000 && b3 != b1
  {
  }

  /** A transfer naming only its source is ignored on create but refunded on delete. */
  lemma OneLegTransferBreaksRoundTrip()
    ensures var body := TxInput(TRANSFER, 100, None, None, None, None, None, Some("A"), None);
      var b1 := CreateEffect(map["A" := 0], body);
      var b2 := ReverseEffect(b1, Normalize("t", body, DateTime(2025, 1, 1, 0)));
      b1 == map["A" := 0] && b2 == map["A" := 100]
  {
  }

  // ---------------------------------------------------------------------------
  // Lookup and listing
  // ---------------------------------------------------------------------------

  predicate UniqueIds(ts: seq<Transaction>)
  {
    forall i, j :: 0 <= i < j < |ts| ==> ts[i].id != ts[j].id
  }

  /** Position of the record with the given id (the first one, should there be several). */
  function IndexOf(ts: seq<Transaction>, id: string): (r: Option<nat>)
    ensures r.Some? ==> r.value < |ts| && ts[r.value].id == id
    ensures r.Some? ==> forall k :: 0 <= k < r.value ==> ts[k].id != id
    ensures r.None? ==> forall k :: 0 <= k < |ts| ==> ts[k].id != id
  {
    if ts == [] then None
    else if ts[0].id == id then Some(0)
    else
      var rest := IndexOf(ts[1..], id);
      if rest.Some? then Some(rest.value + 1) else None
  }

  /** Query parameters of the listing; `None` and the empty string both mean "no filter". */
  datatype ListFilter = ListFilter(
    txType: Option<string>,
    familyMemberId: Option<string>,
    startDate: Option<DateTime>,
    endDate: Option<DateTime>,
    storageTypeId: Option<string>)

  predicate Matches(f: ListFilter, t: Transaction)
  {
    && (Present(f.txType) ==> t.txType == f.txType.value)
    && (Present(f.familyMemberId) ==> t.familyMemberId == f.familyMemberId)
    && (f.startDate.Some? ==> NotAfter(f.startDate.value, t.date))
    && (f.endDate.Some? ==> NotAfter(t.date, f.endDate.value))
    && (Present(f.storageTypeId) ==> t.fromStorageTypeId == f.storageTypeId || t.toStorageTypeId == f.storageTypeId)
  }

  function Select(ts: seq<Transaction>, f: ListFilter): (r: seq<Transaction>)
    ensures forall t :: t in r <==> t in ts && Matches(f, t)
    ensures forall t :: Matches(f, t) ==> multiset(r)[t] == multiset(ts)[t]
    ensures forall t :: !Matches(f, t) ==> multiset(r)[t] == 0
  {
    if ts == [] then []
    else
      assert ts == [ts[0]] + ts[1..];
      (if Matches(f, ts[0]) then [ts[0]] else []) + Select(ts[1..], f)
  }

  predicate SortedDesc(ts: seq<Transaction>)
  {
    forall i, j :: 0 <= i < j < |ts| ==> NotAfter(ts[j].date, ts[i].date)
  }

  /** No record of `ts` is dated after `d`. */
  predicate NoneAfter(ts: seq<Transaction>, d: DateTime)
  {
    forall i :: 0 <= i < |ts| ==> NotAfter(ts[i].date, d)
  }

  lemma NotAfterTransitive(a: DateTime, b: DateTime, c: DateTime)
    requires NotAfter(a, b) && NotAfter(b, c)
    ensures NotAfter(a, c)
  {
  }

  lemma {:induction false} SortedCons(h: Transaction, ts: seq<Transaction>)
    requires SortedDesc(ts) && NoneAfter(ts, h.date)
    ensures SortedDesc([h] + ts)
  {
    var s := [h] + ts;
    forall i, j | 0 <= i < j < |s| ensures NotAfter(s[j].date, s[i].date) {
      if i > 0 {
        assert s[i] == ts[i - 1] && s[j] == ts[j - 1];
      } else {
        assert s[j] == ts[j - 1];
      }
    }
  }

  /** A bound on the head of a newest-first list bounds all of it. */
  lemma {:induction false} HeadBoundsAll(ts: seq<Transaction>, d: DateTime)
    requires SortedDesc(ts) && |ts| > 0 && NotAfter(ts[0].date, d)
    ensures NoneAfter(ts, d)
  {
    forall i | 0 <= i < |ts| ensures NotAfter(ts[i].date, d) {
      if i > 0 {
        NotAfterTransitive(ts[i].date, ts[0].date, d);
      }
    }
  }

  /** Inserts `t` before the first record no newer than it. */
  function Insert(t: Transaction, ts: seq<Transaction>): (r: seq<Transaction>)
    requires SortedDesc(ts)
    ensures SortedDesc(r)
    ensures multiset(r) == multiset(ts) + multiset{t}
    ensures |r| > 0 && (r[0] == t || (ts != [] && r[0] == ts[0]))
  {
    if ts == [] then [t]
    else if NotAfter(ts[0].date, t.date) then
      HeadBoundsAll(ts, t.date);
      SortedCons(t, ts);
      [t] + ts
    else
      var rest := Insert(t, ts[1..]);
      assert ts == [ts[0]] + ts[1..];
      assert NotAfter(rest[0].date, ts[0].date) by {
        if rest[0] != t {
          assert rest[0] == ts[1];
        }
      }
      HeadBoundsAll(rest, ts[0].date);
      SortedCons(ts[0], rest);
      [ts[0]] + rest
  }

  /** Orders by date, newest first (insertion sort). */
  function SortDesc(ts: seq<Transaction>): (r: seq<Transaction>)
    ensures SortedDesc(r)
    ensures multiset(r) == multiset(ts)
  {
    if ts == [] then []
    else
      assert ts == [ts[0]] + ts[1..];
      Insert(ts[0], SortDesc(ts[1..]))
  }

  /** GET: the matching records, newest first. */
  function ListOf(ts: seq<Transaction>, f: ListFilter): (r: seq<Transaction>)
    ensures SortedDesc(r)
    ensures forall t :: t in r ==> t in ts && Matches(f, t)
  {
    SortDesc(Select(ts, f))
  }

  /** The listing holds each matching record as often as the ledger does, nothing else, newest first. */
  lemma {:induction false} ListIsExact(ts: seq<Transaction>, f: ListFilter)
    ensures SortedDesc(ListOf(ts, f))
    ensures forall t :: t in ListOf(ts, f) <==> t in ts && Matches(f, t)
    ensures forall t :: multiset(ListOf(ts, f))[t] == if Matches(f, t) then multiset(ts)[t] else 0
  {
    var r := ListOf(ts, f);
    assert multiset(r) == multiset(Select(ts, f));
    forall t ensures t in r <==> t in ts && Matches(f, t) {
      assert t in r <==> t in multiset(r);
      assert t in Select(ts, f) <==> t in multiset(Select(ts, f));
    }
  }

  /** With no filter, the listing holds every record exactly as often as the ledger. */
  lemma {:induction false} UnfilteredListIsComplete(ts: seq<Transaction>)
    ensures multiset(ListOf(ts, ListFilter(None, None, None, None, None))) == multiset(ts)
  {
    var f := ListFilter(None, None, None, None, None);
    ListIsExact(ts, f);
    assert forall t :: Matches(f, t);
  }

  // ---------------------------------------------------------------------------
  // The store: balances and ledger, updated in place by the three handlers
  // ---------------------------------------------------------------------------

  class Store {
    var balances: map<string, int>
    var ledger: seq<Transaction>

    ghost predicate Valid()
      reads this
    {
      UniqueIds(ledger)
    }

    constructor (initialBalances: map<string, int>, initialLedger: seq<Transaction>)
      requires UniqueIds(initialLedger)
      ensures Valid()
      ensures balances == initialBalances && ledger == initialLedger
    {
      balances := initialBalances;
      ledger := initialLedger;
    }

    /** `findUnique` by id: a linear search of the ledger. */
    method Find(id: string) returns (index: Option<nat>)
      ensures index == IndexOf(ledger, id)
    {
      var i := 0;
      while i < |ledger|
        invariant 0 <= i <= |ledger|
        invariant forall k :: 0 <= k < i ==> ledger[k].id != id
      {
        if ledger[i].id == id {
          FirstMatchIsIndexOf(ledger, id, i);
          return Some(i);
        }
        i := i + 1;
      }
      return None;
    }

    /** `updateStorageBalance`: read the account, then overwrite its balance. */
    method UpdateStorageBalance(storageTypeId: string, amount: int, isAdd: bool)
      modifies this
      ensures balances == UpdateBalance(old(balances), storageTypeId, amount, isAdd)
      ensures ledger == old(ledger)
    {
      if storageTypeId in balances {
        var current := balances[storageTypeId];
        var newBalance := if isAdd then current + amount else current - amount;
        balances := balances[storageTypeId := Max(0, newBalance)];
      }
    }

    /** POST: apply the effect, then insert the normalised record under the generated id. */
    method Create(body: TxInput, newId: string, now: DateTime) returns (result: Result<Transaction>)
      requires Valid()
      modifies this
      ensures Valid()
      ensures balances == CreateEffect(old(balances), body)
      ensures NonNegative(old(balances)) ==> NonNegative(balances)
      ensures result.Ok? <==> IndexOf(old(ledger), newId).None?
      ensures result.Ok? ==> result.value == Normalize(newId, body, now) && ledger == old(ledger) + [result.value]
      ensures result.Err? ==> result.failure == DuplicateId && ledger == old(ledger)
    {
      var a := body.amount;
      var from := body.fromStorageTypeId;
      var to := body.toStorageTypeId;
      if body.txType == INCOME {
        if Present(to) {
          UpdateStorageBalance(to.value, a, true);
        }
      } else if body.txType == EXPENSE {
        if Present(from) {
          UpdateStorageBalance(from.value, a, false);
        }
      } else if body.txType == SAVINGS {
        if Present(from) {
          UpdateStorageBalance(from.value, a, false);
        }
      } else if body.txType == TRANSFER {
        if Present(from) && Present(to) {
          UpdateStorageBalance(from.value, a, false);
          UpdateStorageBalance(to.value, a, true);
        }
      }
      var existing := Find(newId);
      if existing.Some? {
        return Err(DuplicateId);
      }
      var tx := Normalize(newId, body, now);
      ledger := ledger + [tx];
      return Ok(tx);
    }

    /** The reversal block shared by PUT and DELETE. */
    method Reverse(tx: Transaction)
      modifies this
      ensures balances == ReverseEffect(old(balances), tx)
      ensures ledger == old(ledger)
    {
      var a := tx.amount;
      var from := tx.fromStorageTypeId;
      var to := tx.toStorageTypeId;
      if tx.txType == INCOME && Present(to) {
        UpdateStorageBalance(to.value, a, false);
      } else if tx.txType == EXPENSE && Present(from) {
        UpdateStorageBalance(from.value, a, true);
      } else if tx.txType == SAVINGS && Present(from) {
        UpdateStorageBalance(from.value, a, true);
      } else if tx.txType == TRANSFER {
        if Present(from) {
          UpdateStorageBalance(from.value, a, true);
        }
        if Present(to) {
          UpdateStorageBalance(to.value, a, false);
        }
      }
    }

    /**
     * PUT: reverse the old record if it exists, apply the new effect in any
     * case, then overwrite the record, which fails when it does not exist.
     */
    method Update(id: Option<string>, body: TxInput) returns (result: Result<Transaction>)
      requires Valid()
      modifies this
      ensures Valid()
      ensures NonNegative(old(balances)) ==> NonNegative(balances)
      ensures id.None? ==> result == Err(InvalidQuery) && balances == old(balances) && ledger == old(ledger)
      ensures id.Some? && IndexOf(old(ledger), id.value).None? ==>
        && result == Err(NotFound)
        && balances == UpdateEffect(old(balances), body)
        && ledger == old(ledger)
      ensures id.Some? && IndexOf(old(ledger), id.value).Some? ==>
        var i := IndexOf(old(ledger), id.value).value;
        && result == Ok(NormalizeUpdate(old(ledger)[i], body))
        && balances == UpdateEffect(ReverseEffect(old(balances), old(ledger)[i]), body)
        && ledger == old(ledger)[i := result.value]
    {
      if id.None? {
        return Err(InvalidQuery);
      }
      var found := Find(id.value);
      if found.Some? {
        Reverse(ledger[found.value]);
      }
      var a := body.amount;
      var from := body.fromStorageTypeId;
      var to := body.toStorageTypeId;
      if body.txType == INCOME && Present(to) {
        UpdateStorageBalance(to.value, a, true);
      } else if body.txType == EXPENSE && Present(from) {
        UpdateStorageBalance(from.value, a, false);
      } else if body.txType == SAVINGS && Present(from) {
        UpdateStorageBalance(from.value, a, false);
      } else if body.txType == TRANSFER {
        if Present(from) {
          UpdateStorageBalance(from.value, a, false);
        }
        if Present(to) {
          UpdateStorageBalance(to.value, a, true);
        }
      }
      if found.None? {
        return Err(NotFound);
      }
      var tx := NormalizeUpdate(ledger[found.value], body);
      ledger := ledger[found.value := tx];
      return Ok(tx);
    }

    /** DELETE: a missing id is a 400; otherwise reverse the record's effect and remove it. */
    method Delete(id: Option<string>) returns (result: Result<()>)
      requires Valid()
      modifies this
      ensures Valid()
      ensures NonNegative(old(balances)) ==> NonNegative(balances)
      ensures !Present(id) ==> result == Err(IdRequired) && balances == old(balances) && ledger == old(ledger)
      ensures Present(id) && IndexOf(old(ledger), id.value).None? ==>
        result == Err(NotFound) && balances == old(balances) && ledger == old(ledger)
      ensures Present(id) && IndexOf(old(ledger), id.value).Some? ==>
        var i := IndexOf(old(ledger), id.value).value;
        && result == Ok(())
        && balances == ReverseEffect(old(balances), old(ledger)[i])
        && ledger == old(ledger)[..i] + old(ledger)[i + 1..]
    {
      if !Present(id) {
        return Err(IdRequired);
      }
      var found := Find(id.value);
      if found.None? {
        return Err(NotFound);
      }
      var i := found.value;
      Reverse(ledger[i]);
      ledger := ledger[..i] + ledger[i + 1..];
      return Ok(());
    }

    /** GET over the current ledger. */
    function List(f: ListFilter): (r: seq<Transaction>)
      reads this
      ensures SortedDesc(r)
      ensures forall t :: t in r <==> t in ledger && Matches(f, t)
    {
      ListIsExact(ledger, f);
      ListOf(ledger, f)
    }
  }

  lemma {:induction false} FirstMatchIsIndexOf(ts: seq<Transaction>, id: string, i: nat)
    requires i < |ts| && ts[i].id == id
    requires forall k :: 0 <= k < i ==> ts[k].id != id
    ensures IndexOf(ts, id) == Some(i)
  {
    if i > 0 {
      FirstMatchIsIndexOf(ts[1..], id, i - 1);
    }
  }
}
