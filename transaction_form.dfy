/** The form that records a new transaction. */
module TransactionForm {
  import opened Options
  import opened Types
  import opened Text
  import opened Numbers
  import opened Constants

  /** The form's state: every field as the inputs hold it, the amount still as typed. */
  datatype FormData = FormData(
    amount: string,
    kind: TransactionType,
    categoryId: string,
    date: string,
    paymentMethod: string,
    description: string,
    isRecurring: bool)

  /**
   * The blank form: no amount, an expense, the first category (none when there are no categories),
   * today's date, the first payment method, no description, not recurring.
   */
  function BlankForm(cs: seq<Category>, today: string): (f: FormData)
    ensures f.amount == "" && f.kind == Expense && f.date == today && f.description == "" && !f.isRecurring
    ensures f.categoryId == (if |cs| > 0 then cs[0].id else "")
    ensures f.paymentMethod == "Cartão Débito"
  {
    FormData("", Expense, if |cs| > 0 then cs[0].id else "", today, PaymentMethods[0], "", false)
  }

  /** Whether the form passes the checks of `handleSubmit`. */
  predicate Acceptable(f: FormData) {
    f.amount != "" && ParseCents(f.amount).Some? && ParseCents(f.amount).value > 0
    && f.categoryId != "" && Trim(f.description) != ""
  }

  /**
   * `handleSubmit`: None when the amount is empty, not a number or not positive, when no category is
   * chosen or when the description is blank; otherwise the transaction built from the form, with the
   * parsed amount, the trimmed description and every other field copied as it is.
   */
  function Submission(f: FormData, id: string): (r: Option<Transaction>)
    ensures r.Some? <==> Acceptable(f)
    ensures r.Some? ==> r.value.id == id && r.value.amount > 0 && Some(r.value.amount) == ParseCents(f.amount)
    ensures r.Some? ==> (r.value.kind == f.kind && r.value.categoryId == f.categoryId && r.value.date == f.date
                         && r.value.paymentMethod == f.paymentMethod && r.value.isRecurring == f.isRecurring)
    ensures r.Some? ==> r.value.description == Trim(f.description) && r.value.description != ""
    ensures r.Some? ==> Trimmed(r.value.description)
  {
    var amount := ParseCents(f.amount);
    if f.amount == "" || amount.None? || amount.value <= 0 || f.categoryId == "" || Trim(f.description) == "" then
      None
    else
      TrimShape(f.description);
      Some(Transaction(id, amount.value, f.kind, f.categoryId, f.date, f.paymentMethod, Trim(f.description), f.isRecurring))
  }

  /** Submitting the same form twice yields the same transaction up to its id: the description is already trimmed. */
  lemma SubmissionTrimmed(f: FormData, id: string)
    requires Acceptable(f)
    ensures Submission(f.(description := Submission(f, id).value.description), id) == Submission(f, id)
  {
    TrimIdempotent(f.description);
  }

  /** The form component. */
  class Form {
    var data: FormData

    /** No control of the form sets `isRecurring`, so it stays false. */
    predicate Valid()
      reads this
    {
      !data.isRecurring
    }

    constructor(cs: seq<Category>, today: string)
      ensures Valid()
      ensures data == BlankForm(cs, today)
    {
      data := BlankForm(cs, today);
    }

    /** The Despesa/Receita buttons. */
    method SetKind(k: TransactionType)
      requires Valid()
      modifies this
      ensures Valid()
      ensures data == old(data).(kind := k)
    {
      data := data.(kind := k);
    }

    method SetAmount(text: string)
      requires Valid()
      modifies this
      ensures Valid()
      ensures data == old(data).(amount := text)
    {
      data := data.(amount := text);
    }

    method SetCategory(id: string)
      requires Valid()
      modifies this
      ensures Valid()
      ensures data == old(data).(categoryId := id)
    {
      data := data.(categoryId := id);
    }

    method SetDescription(text: string)
      requires Valid()
      modifies this
      ensures Valid()
      ensures data == old(data).(description := text)
    {
      data := data.(description := text);
    }

    method SetDate(date: string)
      requires Valid()
      modifies this
      ensures Valid()
      ensures data == old(data).(date := date)
    {
      data := data.(date := date);
    }

    method SetPaymentMethod(m: string)
      requires Valid()
      modifies this
      ensures Valid()
      ensures data == old(data).(paymentMethod := m)
    {
      data := data.(paymentMethod := m);
    }

    /**
     * The submit button. A rejected form emits nothing and keeps what the user typed; an accepted one
     * emits the transaction, which is never recurring, and the form goes blank again.
     */
    method Submit(id: string, cs: seq<Category>, today: string) returns (emitted: Option<Transaction>)
      requires Valid()
      modifies this
      ensures Valid()
      ensures emitted == Submission(old(data), id)
      ensures emitted.None? ==> data == old(data)
      ensures emitted.Some? ==> data == BlankForm(cs, today) && !emitted.value.isRecurring
    {
      emitted := Submission(data, id);
      if emitted.Some? {
        data := BlankForm(cs, today);
      }
    }
  }
}
