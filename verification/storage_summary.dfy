/**
 * The per-account dialog: the account's value (gold weight times the gold
 * price for a gold account), and the money in and out over the transactions
 * listed for that account, with each row marked incoming or outgoing.
 */
module StorageSummary {
  import opened Common
  import Reconciler
  import GoldPrice

  /** A storage account as the dialog receives it. */
  datatype Storage = Storage(id: string, balance: Option<int>, isGold: bool, goldWeight: Option<real>)

  /** `storage.balance || 0`. */
  function BalanceOrZero(s: Storage): int
  {
    if s.balance.Some? then s.balance.value else 0
  }

  /** The value is the gold's worth: a gold account with a non-zero weight while a positive price is known. */
  predicate ValuedInGold(s: Storage, goldPrice: real)
  {
    s.isGold && s.goldWeight.Some? && s.goldWeight.value != 0.0 && goldPrice > 0.0
  }

  /**
   * `displayValue`: weight times price for a gold account that has a
   * non-zero weight while a positive price is known, else the balance or 0.
   */
  function DisplayValue(s: Storage, goldPrice: real): (v: real)
    ensures ValuedInGold(s, goldPrice) ==> v == s.goldWeight.value * goldPrice
    ensures !ValuedInGold(s, goldPrice) ==> v == BalanceOrZero(s) as real
    ensures ValuedInGold(s, goldPrice) && s.goldWeight.value > 0.0 ==> v > 0.0
  {
    if ValuedInGold(s, goldPrice) then
      s.goldWeight.value * goldPrice
    else
      BalanceOrZero(s) as real
  }

  /** The price the dialog holds: the reply's `pricePerGram || 0`, or 0 when the fetch failed. */
  function FetchedGoldPrice(reply: Option<GoldPrice.Response>): (price: real)
    ensures reply.None? ==> price == 0.0
    ensures reply.Some? && reply.value.pricePerGram != 0.0 ==> price == reply.value.pricePerGram
  {
    if reply.Some? && reply.value.pricePerGram != 0.0 then reply.value.pricePerGram else 0.0
  }

  /**
   * A gold account with a non-zero weight is shown at its weight times the
   * price the gold route serves, since that price is always positive; only
   * when the price fetch fails does it show its balance.
   */
  lemma {:induction false} GoldAccountShowsServedWorth(s: Storage, cache: Option<GoldPrice.Quote>, now: int,
                                                      spot: Option<real>, exchange: GoldPrice.ExchangeReply,
                                                      random: real, outerFailure: bool)
    requires s.isGold && s.goldWeight.Some? && s.goldWeight.value != 0.0
    requires 0.0 <= random < 1.0
    requires spot.Some? ==> spot.value >= 0.0
    requires exchange.ExchangeOk? && exchange.idr.Some? ==> exchange.idr.value >= 0.0
    requires cache.Some? ==> cache.value.price > 0.0
    ensures var served := GoldPrice.Respond(cache, now, spot, exchange, random, outerFailure).0.pricePerGram;
      DisplayValue(s, FetchedGoldPrice(Some(GoldPrice.Respond(cache, now, spot, exchange, random, outerFailure).0)))
        == s.goldWeight.value * served
    ensures DisplayValue(s, FetchedGoldPrice(None)) == BalanceOrZero(s) as real
  {
    GoldPrice.PriceIsPositive(cache, now, spot, exchange, random, outerFailure);
  }

  /** `isIncoming`: income, or a transfer into this account. */
  predicate IsIncoming(storageId: string, t: Transaction)
  {
    t.txType == INCOME || (t.txType == TRANSFER && t.toStorageTypeId == Some(storageId))
  }

  /** The `totalOut` condition: expense, savings, or a transfer out of this account. */
  predicate IsOutgoing(storageId: string, t: Transaction)
  {
    t.txType == EXPENSE || t.txType == SAVINGS || (t.txType == TRANSFER && t.fromStorageTypeId == Some(storageId))
  }

  function Incoming(ts: seq<Transaction>, storageId: string): (r: seq<Transaction>)
    ensures forall t :: t in r <==> t in ts && IsIncoming(storageId, t)
  {
    if ts == [] then []
    else (if IsIncoming(storageId, ts[0]) then [ts[0]] else []) + Incoming(ts[1..], storageId)
  }

  function Outgoing(ts: seq<Transaction>, storageId: string): (r: seq<Transaction>)
    ensures forall t :: t in r <==> t in ts && IsOutgoing(storageId, t)
  {
    if ts == [] then []
    else (if IsOutgoing(storageId, ts[0]) then [ts[0]] else []) + Outgoing(ts[1..], storageId)
  }

  /** `totalIn`: the summed amounts of the incoming rows. */
  function TotalIn(ts: seq<Transaction>, storageId: string): int
  {
    SumAmounts(Incoming(ts, storageId))
  }

  /** `totalOut`: the summed amounts of the outgoing rows. */
  function TotalOut(ts: seq<Transaction>, storageId: string): int
  {
    SumAmounts(Outgoing(ts, storageId))
  }

  /** The marker a row is drawn with: `+` for an incoming row, `-` otherwise. */
  function RowMarker(storageId: string, t: Transaction): char
  {
    if IsIncoming(storageId, t) then '+' else '-'
  }

  /** Reference: the amounts of the rows drawn with `+`, added row by row. */
  function PlusRowsTotal(ts: seq<Transaction>, storageId: string): int
  {
    if ts == [] then 0
    else (if RowMarker(storageId, ts[0]) == '+' then ts[0].amount else 0) + PlusRowsTotal(ts[1..], storageId)
  }

  /** The incoming total is exactly the sum over the rows the list marks `+`. */
  lemma {:induction false} TotalInIsPlusRows(ts: seq<Transaction>, storageId: string)
    ensures TotalIn(ts, storageId) == PlusRowsTotal(ts, storageId)
  {
    if ts != [] {
      TotalInIsPlusRows(ts[1..], storageId);
      var head := if IsIncoming(storageId, ts[0]) then [ts[0]] else [];
      assert Incoming(ts, storageId) == head + Incoming(ts[1..], storageId);
      SumAmountsAppend(head, Incoming(ts[1..], storageId));
    }
  }

  /** A transfer between two other accounts counts in neither total. */
  lemma {:induction false} ForeignTransferCountsNowhere(ts: seq<Transaction>, storageId: string, t: Transaction)
    requires t.txType == TRANSFER
    requires t.fromStorageTypeId != Some(storageId) && t.toStorageTypeId != Some(storageId)
    ensures TotalIn(ts + [t], storageId) == TotalIn(ts, storageId)
    ensures TotalOut(ts + [t], storageId) == TotalOut(ts, storageId)
  {
    IncomingAppend(ts, [t], storageId);
    OutgoingAppend(ts, [t], storageId);
    assert Incoming([t], storageId) == [];
    assert Outgoing([t], storageId) == [];
    assert ts + [] == ts;
    assert Incoming(ts, storageId) + [] == Incoming(ts, storageId);
    assert Outgoing(ts, storageId) + [] == Outgoing(ts, storageId);
  }

  lemma {:induction false} IncomingAppend(a: seq<Transaction>, b: seq<Transaction>, storageId: string)
    ensures Incoming(a + b, storageId) == Incoming(a, storageId) + Incoming(b, storageId)
  {
    if a == [] {
      assert a + b == b;
    } else {
      assert (a + b)[1..] == a[1..] + b;
      IncomingAppend(a[1..], b, storageId);
    }
  }

  lemma {:induction false} OutgoingAppend(a: seq<Transaction>, b: seq<Transaction>, storageId: string)
    ensures Outgoing(a + b, storageId) == Outgoing(a, storageId) + Outgoing(b, storageId)
  {
    if a == [] {
      assert a + b == b;
    } else {
      assert (a + b)[1..] == a[1..] + b;
      OutgoingAppend(a[1..], b, storageId);
    }
  }

  // ---------------------------------------------------------------------------
  // Agreement with the balance updates
  // ---------------------------------------------------------------------------

  /** The account's rows as the dialog requests them: every record naming it as source or destination, newest first. */
  function AccountRows(ledger: seq<Transaction>, storageId: string): (r: seq<Transaction>)
    ensures Reconciler.SortedDesc(r)
    ensures forall t :: t in r ==> t in ledger
  {
    Reconciler.ListOf(ledger, Reconciler.ListFilter(None, None, None, None, Some(storageId)))
  }

  /** Every listed row names the account (an empty id would switch the filter off). */
  lemma AccountRowsNameAccount(ledger: seq<Transaction>, storageId: string)
    requires storageId != ""
    ensures forall t :: t in AccountRows(ledger, storageId) <==>
      t in ledger && (t.fromStorageTypeId == Some(storageId) || t.toStorageTypeId == Some(storageId))
  {
    Reconciler.ListIsExact(ledger, Reconciler.ListFilter(None, None, None, None, Some(storageId)));
  }

  /** The row names this account in the role its type moves money through. */
  predicate UsesAccountAsLeg(storageId: string, t: Transaction)
  {
    if t.txType == INCOME then t.toStorageTypeId == Some(storageId)
    else if t.txType == EXPENSE || t.txType == SAVINGS then t.fromStorageTypeId == Some(storageId)
    else t.txType == TRANSFER && (t.fromStorageTypeId == Some(storageId) || t.toStorageTypeId == Some(storageId))
  }

  /** The unclamped change the rows made to this account, summed. */
  function NetEffect(ts: seq<Transaction>, storageId: string): int
  {
    if ts == [] then 0 else Reconciler.RecordDelta(ts[0], storageId) + NetEffect(ts[1..], storageId)
  }

  /**
   * When every row moves money through this account, money in minus money
   * out is exactly what those transactions added to the account's balance
   * (before any clamping).
   */
  lemma {:induction false} NetShownIsAccountChange(ts: seq<Transaction>, storageId: string)
    requires storageId != ""
    requires forall t :: t in ts ==> UsesAccountAsLeg(storageId, t)
    ensures TotalIn(ts, storageId) - TotalOut(ts, storageId) == NetEffect(ts, storageId)
  {
    if ts != [] {
      var t := ts[0];
      NetShownIsAccountChange(ts[1..], storageId);
      var inHead := if IsIncoming(storageId, t) then [t] else [];
      var outHead := if IsOutgoing(storageId, t) then [t] else [];
      assert Incoming(ts, storageId) == inHead + Incoming(ts[1..], storageId);
      assert Outgoing(ts, storageId) == outHead + Outgoing(ts[1..], storageId);
      SumAmountsAppend(inHead, Incoming(ts[1..], storageId));
      SumAmountsAppend(outHead, Outgoing(ts[1..], storageId));
      assert UsesAccountAsLeg(storageId, t);
      assert SumAmounts(inHead) - SumAmounts(outHead) == Reconciler.RecordDelta(t, storageId);
    }
  }

  /**
   * A row the dialog lists can still break that agreement: an income
   * recorded with this account only as its source is listed and counted as
   * money in, yet never touched the account.
   */
  lemma IncomeFromThisAccountIsMisread()
    ensures var t := Transaction("t", INCOME, 100, None, DateTime(2025, 1, 1, 0), None, None, None, Some("A"), Some("B"));
      && AccountRows([t], "A") == [t]
      && TotalIn([t], "A") == 100
      && NetEffect([t], "A") == 0
  {
    var t := Transaction("t", INCOME, 100, None, DateTime(2025, 1, 1, 0), None, None, None, Some("A"), Some("B"));
    var f := Reconciler.ListFilter(None, None, None, None, Some("A"));
    assert Reconciler.Matches(f, t);
    assert Reconciler.Select([t], f) == [t];
    assert [t][1..] == [];
    assert Reconciler.SortDesc([t]) == Reconciler.Insert(t, []);
    assert Reconciler.SortDesc([t]) == [t];
    assert AccountRows([t], "A") == [t];
    assert Incoming([t], "A") == [t];
    assert [t][1..] == [];
    assert SumAmounts([t]) == t.amount + SumAmounts([]);
    assert Reconciler.RecordDelta(t, "A") == 0;
    assert NetEffect([t], "A") == 0;
  }
}
