/**
 * The "add transaction" dialog: a form whose fields are all text, the rule
 * that enables its submit button, the reset of dependent fields when the
 * type changes, and the body it posts (the amount with its dots removed).
 */
module TransactionForm {
  import opened Common
  import RupiahInput
  import Reconciler

  /** The dialog's form state: every field is the text of an input or a select. */
  datatype FormData = FormData(
    txType: string,
    amount: string,
    description: string,
    date: string,
    familyMemberId: string,
    savingsCategoryId: string,
    expenseCategoryId: string,
    fromStorageTypeId: string,
    toStorageTypeId: string)

  predicate KnownType(txType: string)
  {
    txType == INCOME || txType == EXPENSE || txType == SAVINGS || txType == TRANSFER
  }

  /** The form as the dialog opens it; `today` is the current date's text. */
  function Blank(today: string): (f: FormData)
    ensures SubmitDisabled(false, f)
    ensures f.txType == INCOME && f.date == today
  {
    FormData(INCOME, "", "", today, "", "", "", "", "")
  }

  /** The submit button's `disabled` rule. */
  predicate SubmitDisabled(loading: bool, f: FormData)
  {
    || loading
    || f.amount == ""
    || (f.txType == INCOME && f.toStorageTypeId == "")
    || ((f.txType == EXPENSE || f.txType == SAVINGS) && f.fromStorageTypeId == "")
    || (f.txType == TRANSFER && (f.fromStorageTypeId == "" || f.toStorageTypeId == ""))
  }

  /** Selecting a type clears both categories and both accounts and keeps the rest. */
  function WithType(f: FormData, txType: string): (g: FormData)
    ensures g.txType == txType
    ensures g.savingsCategoryId == "" && g.expenseCategoryId == ""
    ensures g.fromStorageTypeId == "" && g.toStorageTypeId == ""
    ensures g.amount == f.amount && g.description == f.description && g.date == f.date
    ensures g.familyMemberId == f.familyMemberId
  {
    f.(txType := txType, savingsCategoryId := "", expenseCategoryId := "", fromStorageTypeId := "", toStorageTypeId := "")
  }

  /** The posted body: the form with the amount's dots removed. */
  function SubmitBody(f: FormData): (body: FormData)
    ensures body.amount == RupiahInput.Parse(f.amount)
    ensures body == f.(amount := body.amount)
  {
    f.(amount := RupiahInput.Parse(f.amount))
  }

  /**
   * The request body as the route reads it. Every field arrives as a string;
   * the date arrives already parsed; `parseFloat` of the amount is modelled on
   * digit strings, the only amounts the form sends, and gives nothing for the
   * empty string (NaN).
   */
  function ToInput(body: FormData, date: Option<DateTime>): (r: Option<TxInput>)
    ensures r.Some? <==> body.amount != "" && RupiahInput.AllDigits(body.amount)
    ensures r.Some? ==> r.value.amount == RupiahInput.DecimalValue(body.amount)
    ensures r.Some? ==> r.value.txType == body.txType && r.value.date == date
    ensures r.Some? ==> r.value.fromStorageTypeId == Some(body.fromStorageTypeId)
    ensures r.Some? ==> r.value.toStorageTypeId == Some(body.toStorageTypeId)
  {
    if body.amount != "" && RupiahInput.AllDigits(body.amount) then
      Some(TxInput(
        body.txType, RupiahInput.DecimalValue(body.amount), Some(body.description), date,
        Some(body.familyMemberId), Some(body.savingsCategoryId), Some(body.expenseCategoryId),
        Some(body.fromStorageTypeId), Some(body.toStorageTypeId)))
    else
      None
  }

  /** The field invariant: the amount text is always in formatted form. */
  predicate AmountFormatted(f: FormData)
  {
    RupiahInput.Format(f.amount) == f.amount
  }

  // ---------------------------------------------------------------------------
  // Properties
  // ---------------------------------------------------------------------------

  /** Choosing any of the four types leaves the form unsubmittable until its accounts are picked again. */
  lemma TypeChangeDisablesSubmit(f: FormData, txType: string, loading: bool)
    requires KnownType(txType)
    ensures SubmitDisabled(loading, WithType(f, txType))
  {
  }

  /** The submit button is enabled iff the amount and every account the type needs are filled in. */
  lemma EnabledIffComplete(f: FormData, loading: bool)
    requires KnownType(f.txType)
    ensures !SubmitDisabled(loading, f) <==>
      && !loading
      && f.amount != ""
      && (f.txType == INCOME || f.txType == TRANSFER ==> f.toStorageTypeId != "")
      && (f.txType != INCOME ==> f.fromStorageTypeId != "")
  {
  }

  /**
   * A form that can be submitted posts a digit amount the route can read,
   * every account its type needs is present, and a transfer never names just
   * one account, so the route moves money on every leg it is given.
   */
  lemma {:induction false} EnabledSubmitReachesEveryLeg(f: FormData, loading: bool, date: Option<DateTime>)
    requires AmountFormatted(f)
    requires KnownType(f.txType)
    requires !SubmitDisabled(loading, f)
    ensures var input := ToInput(SubmitBody(f), date);
      && input.Some?
      && !Reconciler.OneLegTransfer(input.value)
      && (f.txType == INCOME ==> Reconciler.Legs(f.txType, input.value.fromStorageTypeId, input.value.toStorageTypeId) == {f.toStorageTypeId})
      && (f.txType == EXPENSE || f.txType == SAVINGS ==>
            Reconciler.Legs(f.txType, input.value.fromStorageTypeId, input.value.toStorageTypeId) == {f.fromStorageTypeId})
      && (f.txType == TRANSFER ==>
            Reconciler.Legs(f.txType, input.value.fromStorageTypeId, input.value.toStorageTypeId)
              == {f.fromStorageTypeId, f.toStorageTypeId})
  {
    RupiahInput.ParseFormat(f.amount);
    assert RupiahInput.Parse(f.amount) != "";
  }

  /** The posted amount is the number whose digits were typed. */
  lemma {:induction false} SubmittedAmount(f: FormData, date: Option<DateTime>)
    requires AmountFormatted(f)
    ensures RupiahInput.AllDigits(SubmitBody(f).amount)
    ensures SubmitBody(f).amount == RupiahInput.DigitsOf(f.amount)
    ensures SubmitBody(f).amount == "" <==> f.amount == ""
  {
    RupiahInput.ParseFormat(f.amount);
  }

  // ---------------------------------------------------------------------------
  // The dialog's state
  // ---------------------------------------------------------------------------

  class AddTransactionDialog {
    var formData: FormData
    var loading: bool

    ghost predicate Valid()
      reads this
    {
      AmountFormatted(formData)
    }

    /** Opening the dialog resets the form. */
    constructor (today: string)
      ensures Valid()
      ensures formData == Blank(today) && !loading
    {
      formData := Blank(today);
      loading := false;
    }

    method ChangeType(txType: string)
      requires Valid()
      modifies this
      ensures Valid()
      ensures formData == WithType(old(formData), txType) && loading == old(loading)
    {
      formData := formData.(txType := txType, savingsCategoryId := "", expenseCategoryId := "",
                            fromStorageTypeId := "", toStorageTypeId := "");
    }

    /** Typing in the amount field stores the formatted text. */
    method ChangeAmount(typed: string)
      requires Valid()
      modifies this
      ensures Valid()
      ensures formData == old(formData).(amount := RupiahInput.Format(typed)) && loading == old(loading)
    {
      RupiahInput.FormatIdempotent(typed);
      formData := formData.(amount := RupiahInput.Format(typed));
    }

    /**
     * Submitting (only possible while the button is enabled) posts the body;
     * the form is left as it was and `loading` is cleared again at the end,
     * whatever the response.
     */
    method Submit() returns (body: FormData)
      requires Valid() && !SubmitDisabled(loading, formData)
      modifies this
      ensures Valid()
      ensures body == SubmitBody(formData) && formData == old(formData) && !loading
      ensures RupiahInput.AllDigits(body.amount) && body.amount != ""
    {
      loading := true;
      body := formData.(amount := RupiahInput.Parse(formData.amount));
      SubmittedAmount(formData, None);
      loading := false;
    }
  }
}
