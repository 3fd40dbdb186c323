/**
 * The send-money wizard: seven fixed steps from choosing a recipient to the
 * confirmation screen, a record of collected fields (`sendData`) and the
 * derived fee, arrival estimate and total. The component's two state cells,
 * `currentStep` and `sendData`, are the fields of `SendMoneyWizard`; each event
 * handler is a method. A handler bound to a control that is rendered on one
 * step only requires that step.
 */
module SendMoney {
  import opened Wrappers
  import opened Text
  import Reference

  datatype SendStep = Recipient | Bank | Amount | Method | Schedule | Review | Complete

  /** The steps in the order the wizard visits them. */
  const Steps: seq<SendStep> := [Recipient, Bank, Amount, Method, Schedule, Review, Complete]

  datatype RecipientType = Saved | Manual | Ocr

  datatype PaymentMethodId = Swift | Ach | Sepa | Faster

  /** A row of the payment-method table: its fee and its arrival estimate. */
  datatype PaymentMethod = PaymentMethod(id: PaymentMethodId, name: string, fee: real, time: string)

  const PaymentMethods: seq<PaymentMethod> := [
    PaymentMethod(Swift, "SWIFT Wire", 25.0, "1-2 business days"),
    PaymentMethod(Ach, "ACH Transfer", 5.0, "2-3 business days"),
    PaymentMethod(Sepa, "SEPA Transfer", 2.0, "Same day"),
    PaymentMethod(Faster, "Faster Payments", 1.0, "Instant")
  ]

  /** A saved beneficiary offered on the recipient step (flag and last use are display only). */
  datatype SavedBeneficiary = SavedBeneficiary(id: string, name: string, bank: string)

  const SavedBeneficiaries: seq<SavedBeneficiary> := [
    SavedBeneficiary("BEN001", "Microsoft Corporation", "JP Morgan Chase"),
    SavedBeneficiary("BEN002", "Shopify Inc.", "Deutsche Bank"),
    SavedBeneficiary("BEN003", "Amazon Web Services", "HSBC")
  ]

  /** The collected fields; `Option` fields are the optional (`?`) ones. */
  datatype SendData = SendData(
    recipientType: RecipientType,
    recipientId: Option<string>,
    recipientName: string,
    bankName: string,
    accountNumber: string,
    swiftCode: string,
    currency: string,
    amount: string,
    purpose: string,
    paymentMethod: PaymentMethodId,
    isRecurring: bool,
    frequency: Option<string>,
    scheduledDate: Option<string>,
    fee: real,
    expectedArrival: string,
    referenceId: Option<string>)

  /** The free-text and select fields the step screens edit. */
  datatype TextField = RecipientName | BankName | AccountNumber | SwiftCode | Currency | AmountText | Purpose

  /** `steps.indexOf(step)`: the one position of `step` in `Steps`. */
  function StepIndex(step: SendStep): (i: nat)
    ensures i < |Steps| && Steps[i] == step
    ensures forall j :: 0 <= j < |Steps| && j != i ==> Steps[j] != step
  {
    match step
    case Recipient => 0
    case Bank => 1
    case Amount => 2
    case Method => 3
    case Schedule => 4
    case Review => 5
    case Complete => 6
  }

  /** `getProgress()`: the share of the progress bar that is filled, in percent. */
  function Progress(step: SendStep): (p: real)
    ensures 0.0 < p <= 100.0
    ensures p == 100.0 <==> step == Complete
  {
    (StepIndex(step) + 1) as real / |Steps| as real * 100.0
  }

  /** `handleNext`: one step forward, staying put on the last step. */
  function NextStep(step: SendStep): (r: SendStep)
    ensures StepIndex(r) == if StepIndex(step) < |Steps| - 1 then StepIndex(step) + 1 else StepIndex(step)
  {
    var i := StepIndex(step);
    if i < |Steps| - 1 then Steps[i + 1] else step
  }

  /** `handleBack`: one step back, staying put on the first step. */
  function PrevStep(step: SendStep): (r: SendStep)
    ensures StepIndex(r) == if StepIndex(step) > 0 then StepIndex(step) - 1 else 0
  {
    var i := StepIndex(step);
    if i > 0 then Steps[i - 1] else step
  }

  /** The table row of a payment method. */
  function MethodRow(id: PaymentMethodId): (m: PaymentMethod)
    ensures m in PaymentMethods && m.id == id
  {
    match id
    case Swift => PaymentMethods[0]
    case Ach => PaymentMethods[1]
    case Sepa => PaymentMethods[2]
    case Faster => PaymentMethods[3]
  }

  /** The fee and the arrival estimate are those of the selected method's row. */
  predicate FeeMatchesMethod(d: SendData) {
    d.fee == MethodRow(d.paymentMethod).fee && d.expectedArrival == MethodRow(d.paymentMethod).time
  }

  /** The record the wizard starts from and "Send Another" restores. */
  function InitialData(): (d: SendData)
    ensures FeeMatchesMethod(d) && d.paymentMethod == Swift && d.fee == 25.0
    ensures d.recipientType == Saved && d.recipientId == None && d.referenceId == None
    ensures d.recipientName == d.bankName == d.accountNumber == d.swiftCode == d.amount == d.purpose == ""
  {
    SendData(Saved, None, "", "", "", "", "USD", "", "", Swift, false, None, None, 25.0, "1-2 business days", None)
  }

  /** The method card's click: method, fee and arrival estimate from the chosen row. */
  function WithMethod(d: SendData, m: PaymentMethod): (r: SendData)
    requires m in PaymentMethods
    ensures FeeMatchesMethod(r) && r.paymentMethod == m.id && r.fee == m.fee
    ensures r.(paymentMethod := d.paymentMethod, fee := d.fee, expectedArrival := d.expectedArrival) == d
  {
    d.(paymentMethod := m.id, fee := m.fee, expectedArrival := m.time)
  }

  /** An `onChange` of one text input or select. */
  function WithText(d: SendData, field: TextField, value: string): SendData {
    match field
    case RecipientName => d.(recipientName := value)
    case BankName => d.(bankName := value)
    case AccountNumber => d.(accountNumber := value)
    case SwiftCode => d.(swiftCode := value)
    case Currency => d.(currency := value)
    case AmountText => d.(amount := value)
    case Purpose => d.(purpose := value)
  }

  /** Whether the input for `field` is on screen: each input belongs to one step. */
  predicate Editable(step: SendStep, d: SendData, field: TextField) {
    match field
    case RecipientName => step == Recipient && d.recipientType == Manual
    case BankName | AccountNumber | SwiftCode => step == Bank
    case Currency | AmountText | Purpose => step == Amount
  }

  /**
   * Whether the step's Continue button is enabled. The recipient screen shows one only
   * for manual entry; the review and confirmation screens have none.
   */
  predicate ContinueEnabled(step: SendStep, d: SendData)
    ensures ContinueEnabled(step, d) ==> StepIndex(step) < StepIndex(Review)
    ensures ContinueEnabled(step, d) && ProgressJustified(step, d) ==> ProgressJustified(NextStep(step), d)
  {
    match step
    case Recipient => d.recipientType == Manual && d.recipientName != ""
    case Bank => d.bankName != "" && d.accountNumber != ""
    case Amount => d.amount != "" && d.purpose != ""
    case Method | Schedule => true
    case Review | Complete => false
  }

  /** Every step behind `step` has the fields its Continue button demanded. */
  predicate ProgressJustified(step: SendStep, d: SendData) {
    var i := StepIndex(step);
    && (i > 0 ==> d.recipientName != "")
    && (i > 1 ==> d.bankName != "" && d.accountNumber != "")
    && (i > 2 ==> d.amount != "" && d.purpose != "")
  }

  /** The "Total" line: `parseFloat(amount) + fee`, with `None` for NaN. */
  function Total(d: SendData): (r: Option<real>)
    ensures r.Some? <==> ParseNumber(d.amount).Some?
    ensures r.Some? ==> r.value - d.fee == ParseNumber(d.amount).value
  {
    match ParseNumber(d.amount)
    case Some(a) => Some(a + d.fee)
    case None => None
  }

  // ---------------------------------------------------------------------------
  // Properties of the step sequence

  /** `StepIndex` and `Steps` are inverse to each other. */
  lemma StepIndexOfSteps(i: nat)
    requires i < |Steps|
    ensures StepIndex(Steps[i]) == i
  {
  }

  /** Next never passes the confirmation step, and there it does nothing. */
  lemma NextStepClamped(step: SendStep)
    ensures StepIndex(NextStep(step)) <= StepIndex(Complete)
    ensures step == Complete <==> NextStep(step) == step
  {
  }

  /** Back never passes the recipient step, and there it does nothing. */
  lemma PrevStepClamped(step: SendStep)
    ensures step == Recipient <==> PrevStep(step) == step
  {
  }

  /** Back then Next returns to any step but the first. */
  lemma BackThenNext(step: SendStep)
    requires step != Recipient
    ensures NextStep(PrevStep(step)) == step
  {
    StepIndexOfSteps(StepIndex(step));
  }

  /** Next then Back returns to any step but the last. */
  lemma NextThenBack(step: SendStep)
    requires step != Complete
    ensures PrevStep(NextStep(step)) == step
  {
    StepIndexOfSteps(StepIndex(step));
  }

  /** Each Next fills more of the bar, until the confirmation step. */
  lemma ProgressGrows(step: SendStep)
    requires step != Complete
    ensures Progress(NextStep(step)) > Progress(step)
  {
  }

  // ---------------------------------------------------------------------------
  // Properties of the fields

  /** The fee table: SWIFT 25, ACH 5, SEPA 2, Faster Payments 1. */
  lemma MethodFees()
    ensures MethodRow(Swift).fee == 25.0 && MethodRow(Ach).fee == 5.0
    ensures MethodRow(Sepa).fee == 2.0 && MethodRow(Faster).fee == 1.0
  {
  }

  /** A method's id picks its row: no two rows share an id. */
  lemma MethodRowUnique(m: PaymentMethod)
    requires m in PaymentMethods
    ensures MethodRow(m.id) == m
  {
  }

  /** Changing the method moves the total by the difference in fees and keeps the amount. */
  lemma TotalFollowsMethod(d: SendData, m: PaymentMethod)
    requires m in PaymentMethods && ParseNumber(d.amount).Some?
    ensures WithMethod(d, m).amount == d.amount
    ensures Total(WithMethod(d, m)) == Some(ParseNumber(d.amount).value + m.fee)
  {
  }

  /** 500 by SWIFT totals 525; switching to Faster Payments totals 501. */
  lemma TotalExample(d: SendData)
    requires d.amount == NatToString(500) && d.paymentMethod == Swift && FeeMatchesMethod(d)
    ensures Total(d) == Some(525.0)
    ensures Total(WithMethod(d, MethodRow(Faster))) == Some(501.0)
  {
    ParseNatToString(500);
  }

  /** Editing an input on screen never unjustifies a step already passed. */
  lemma EditKeepsJustified(step: SendStep, d: SendData, field: TextField, value: string)
    requires ProgressJustified(step, d) && Editable(step, d, field)
    ensures ProgressJustified(step, WithText(d, field, value))
  {
  }

  /** On the review step the recipient, bank details, amount and purpose are all filled. */
  lemma ReviewHasDetails(d: SendData)
    requires ProgressJustified(Review, d)
    ensures d.recipientName != "" && d.bankName != "" && d.accountNumber != ""
    ensures d.amount != "" && d.purpose != ""
  {
  }

  /** The wizard's state: the current step and the collected record. */
  class SendMoneyWizard {
    var currentStep: SendStep
    var data: SendData

    /**
     * The invariant every handler keeps: a reference id exists exactly on the
     * confirmation step, the fee and arrival match the method, the amount is an
     * exponent-free number-input string, and no step was passed without its required fields.
     */
    ghost predicate Valid()
      reads this
    {
      && (data.referenceId.Some? <==> currentStep == Complete)
      && (data.referenceId.Some? ==> "PAY" <= data.referenceId.value)
      && FeeMatchesMethod(data)
      && IsNumberInput(data.amount)
      && ProgressJustified(currentStep, data)
    }

    constructor ()
      ensures Valid()
      ensures currentStep == Recipient && data == InitialData()
    {
      currentStep := Recipient;
      data := InitialData();
    }

    /** The Saved / Manual / OCR Upload tabs. */
    method SelectRecipientType(t: RecipientType)
      requires Valid() && currentStep == Recipient
      modifies this
      ensures Valid()
      ensures currentStep == old(currentStep) && data == old(data).(recipientType := t)
    {
      data := data.(recipientType := t);
    }

    /** Typing into an input or choosing from a select on the current screen. */
    method EditText(field: TextField, value: string)
      requires Valid() && Editable(currentStep, data, field)
      requires field == AmountText ==> IsNumberInput(value)
      modifies this
      ensures Valid()
      ensures currentStep == old(currentStep) && data == WithText(old(data), field, value)
    {
      EditKeepsJustified(currentStep, data, field, value);
      data := WithText(data, field, value);
    }

    /** A Continue button: `handleNext` when enabled, nothing when disabled or absent. */
    method Continue()
      requires Valid()
      modifies this
      ensures Valid()
      ensures data == old(data)
      ensures currentStep == if ContinueEnabled(old(currentStep), data) then NextStep(old(currentStep)) else old(currentStep)
    {
      if ContinueEnabled(currentStep, data) {
        currentStep := NextStep(currentStep);
      }
    }

    /** `handleBack`, bound to the Back buttons, which the confirmation screen does not show. */
    method Back()
      requires Valid() && currentStep != Complete
      modifies this
      ensures Valid()
      ensures currentStep == PrevStep(old(currentStep)) && data == old(data)
    {
      currentStep := PrevStep(currentStep);
    }

    /** `handleSelectBeneficiary`: copy the saved entry's id, name and bank, then `handleNext`. */
    method SelectBeneficiary(b: SavedBeneficiary)
      requires Valid() && currentStep == Recipient && data.recipientType == Saved
      requires b in SavedBeneficiaries
      modifies this
      ensures Valid()
      ensures data == old(data).(recipientType := Saved, recipientId := Some(b.id),
                                 recipientName := b.name, bankName := b.bank)
      ensures currentStep == NextStep(old(currentStep)) == Bank
    {
      data := data.(recipientType := Saved, recipientId := Some(b.id),
                    recipientName := b.name, bankName := b.bank);
      currentStep := NextStep(currentStep);
    }

    /** A payment-method card: method, fee and arrival from its row. */
    method SelectMethod(m: PaymentMethod)
      requires Valid() && currentStep == Method && m in PaymentMethods
      modifies this
      ensures Valid()
      ensures currentStep == old(currentStep) && data == WithMethod(old(data), m)
      ensures data.amount == old(data).amount
    {
      data := WithMethod(data, m);
    }

    /** The "Send Immediately" switch: no date when on, the given date (today) when off. */
    method SetSendImmediately(checked: bool, today: string)
      requires Valid() && currentStep == Schedule
      modifies this
      ensures Valid()
      ensures currentStep == old(currentStep)
      ensures data == old(data).(scheduledDate := if checked then None else Some(today))
    {
      data := data.(scheduledDate := if checked then None else Some(today));
    }

    /** The date input, shown while a non-empty date is set. */
    method SetScheduledDate(date: string)
      requires Valid() && currentStep == Schedule
      requires data.scheduledDate.Some? && data.scheduledDate.value != ""
      modifies this
      ensures Valid()
      ensures currentStep == old(currentStep) && data == old(data).(scheduledDate := Some(date))
    {
      data := data.(scheduledDate := Some(date));
    }

    /** The "Recurring Payment" switch. */
    method SetRecurring(on: bool)
      requires Valid() && currentStep == Schedule
      modifies this
      ensures Valid()
      ensures currentStep == old(currentStep) && data == old(data).(isRecurring := on)
    {
      data := data.(isRecurring := on);
    }

    /** The frequency select, shown while the payment is recurring. */
    method SetFrequency(frequency: string)
      requires Valid() && currentStep == Schedule && data.isRecurring
      modifies this
      ensures Valid()
      ensures currentStep == old(currentStep) && data == old(data).(frequency := Some(frequency))
    {
      data := data.(frequency := Some(frequency));
    }

    /** `handleSendPayment` at clock reading `now`: stamp a PAY id and jump to the confirmation. */
    method SendPayment(now: nat)
      requires Valid() && currentStep == Review
      modifies this
      ensures Valid()
      ensures currentStep == Complete
      ensures data == old(data).(referenceId := Some(Reference.ReferenceId("PAY", now)))
    {
      data := data.(referenceId := Some(Reference.ReferenceId("PAY", now)));
      currentStep := Complete;
    }

    /** "Send Another": back to the first step with the initial record. */
    method SendAnother()
      requires Valid() && currentStep == Complete
      modifies this
      ensures Valid()
      ensures currentStep == Recipient && data == InitialData()
    {
      currentStep := Recipient;
      data := InitialData();
    }
  }
}
