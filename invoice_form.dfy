/**
 * The add and edit invoice forms. Both hold the same four fields and two error slots and
 * save by the same rules, checked in order with an early return: first the amount, then a
 * light check on the length of the date text. What the screen passes on is modelled as a
 * list of effects; `toDoubleOrNull` is the form's parser, a parameter of the model.
 */
module InvoiceForm {
  import opened Wrappers
  import opened Numbers
  import opened Text
  import opened Dates
  import opened Models

  datatype FormError = InvalidAmount | DateFormat

  /** The text each error shows under its field. */
  function Message(e: FormError): string {
    match e
    case InvalidAmount => "Enter a valid amount"
    case DateFormat => "Use format YYYY-MM-DD or leave empty"
  }

  /** The callbacks the form makes: `onSaveInvoice(amount, date, status, notes)` and
      `onNavigateBack()`. */
  datatype Effect =
    | SaveInvoice(amount: Double, dateText: string, paymentStatus: PaymentStatus, notes: string)
    | NavigateBack

  /** The amount test as written, `amount == null || amount <= 0.0` negated: a parsed
      number that does not compare as at most zero. */
  predicate AmountAcceptedAsWritten(parsed: Option<Double>) {
    parsed.Some? && !AtMostZero(parsed.value)
  }

  /** The test as written also lets through the two parses of `"NaN"` and `"Infinity"`,
      which are not amounts. */
  lemma AmountAcceptedAsWrittenLetsNonNumbersThrough()
    ensures AmountAcceptedAsWritten(Some(NaN))
    ensures AmountAcceptedAsWritten(Some(PositiveInfinity))
  {
  }

  /** A valid amount: a finite number greater than zero. */
  predicate ValidAmount(parsed: Option<Double>) {
    parsed.Some? && parsed.value.Finite? && parsed.value.value > 0.0
  }

  /** On every parse that is absent or an ordinary number the corrected test and the test as
      written agree; they differ on exactly NaN and positive infinity. */
  lemma ValidAmountAgreesOnNumbers(parsed: Option<Double>)
    ensures ValidAmount(parsed) ==> AmountAcceptedAsWritten(parsed)
    ensures AmountAcceptedAsWritten(parsed) && !ValidAmount(parsed)
      <==> parsed == Some(NaN) || parsed == Some(PositiveInfinity)
  {
  }

  /** Kotlin `String.length`: UTF-16 code units, so a character above U+FFFF counts twice. */
  function Utf16Length(s: string): (n: nat)
    ensures |s| <= n <= 2 * |s|
  {
    if s == [] then 0
    else (if s[0] as int > 0xFFFF then 2 else 1) + Utf16Length(s[1..])
  }

  /** The date check: a non-blank date text shorter than eight UTF-16 units is rejected;
      blank text is accepted, since the date is optional. */
  predicate DateTooShort(dateText: string) {
    !IsBlank(dateText) && Utf16Length(dateText) < 8
  }

  /** Any date the app formats (`uuuu-MM-dd`) passes the date check, and so does blank text. */
  lemma FormattedDatePassesCheck(d: LocalDate, blank: string)
    requires IsBlank(blank)
    ensures !DateTooShort(DateText(d)) && !DateTooShort(blank)
  {
    DateTextLength(d);
  }

  /** A date text the check rejects has between one and seven characters. */
  lemma RejectedDateIsShort(dateText: string)
    requires DateTooShort(dateText)
    ensures 1 <= |dateText| <= 7
  {
  }

  /** What one press of save leaves in the two error slots, and whether it saves. */
  datatype SaveOutcome = SaveOutcome(amountError: Option<FormError>, dateError: Option<FormError>, saves: bool)

  /** The rules of `handleSave`, in their order, for an amount test that has already been
      decided: a rejected amount stops everything and leaves the date error as it was; an
      accepted amount clears the amount error, then a too-short date stops with the date
      error; otherwise both errors are cleared and the form saves. */
  function Outcome(amountAccepted: bool, dateText: string, previousDateError: Option<FormError>): SaveOutcome {
    if !amountAccepted then SaveOutcome(Some(InvalidAmount), previousDateError, false)
    else if DateTooShort(dateText) then SaveOutcome(None, Some(DateFormat), false)
    else SaveOutcome(None, None, true)
  }

  /** `handleSave` with the corrected amount test, `ValidAmount`. */
  function SaveOutcomeFor(parsed: Option<Double>, dateText: string, previousDateError: Option<FormError>): (r: SaveOutcome)
    ensures r.saves <==> ValidAmount(parsed) && !DateTooShort(dateText)
    ensures r.amountError == None <==> ValidAmount(parsed)
    ensures r.amountError != None ==> r.amountError == Some(InvalidAmount)
    ensures !ValidAmount(parsed) ==> r.dateError == previousDateError
    ensures ValidAmount(parsed) ==> (r.dateError == None <==> !DateTooShort(dateText))
    ensures ValidAmount(parsed) && r.dateError != None ==> r.dateError == Some(DateFormat)
    ensures r.saves ==> r.amountError == None && r.dateError == None
  {
    Outcome(ValidAmount(parsed), dateText, previousDateError)
  }

  /** `handleSave` as written, with the amount test `amount == null || amount <= 0.0`. */
  function SaveOutcomeAsWritten(parsed: Option<Double>, dateText: string, previousDateError: Option<FormError>): (r: SaveOutcome)
    ensures r.saves <==> AmountAcceptedAsWritten(parsed) && !DateTooShort(dateText)
    ensures r.amountError == None <==> AmountAcceptedAsWritten(parsed)
    ensures !AmountAcceptedAsWritten(parsed) ==> r.dateError == previousDateError
    ensures r.saves ==> r.amountError == None && r.dateError == None
  {
    Outcome(AmountAcceptedAsWritten(parsed), dateText, previousDateError)
  }

  /** As written, the form saves the parses of `"NaN"` and `"Infinity"` whenever the date
      passes, whatever error the date field showed before; the corrected form saves
      neither. */
  lemma AsWrittenSavesNonNumbers(dateText: string, previousDateError: Option<FormError>)
    requires !DateTooShort(dateText)
    ensures SaveOutcomeAsWritten(Some(NaN), dateText, previousDateError).saves
    ensures SaveOutcomeAsWritten(Some(PositiveInfinity), dateText, previousDateError).saves
    ensures !SaveOutcomeFor(Some(NaN), dateText, previousDateError).saves
    ensures !SaveOutcomeFor(Some(PositiveInfinity), dateText, previousDateError).saves
  {
    AmountAcceptedAsWrittenLetsNonNumbersThrough();
  }

  /** Apart from those two parses, the corrected form and the form as written behave the
      same. */
  lemma CorrectedSaveAgreesOnNumbers(parsed: Option<Double>, dateText: string, previousDateError: Option<FormError>)
    requires parsed != Some(NaN) && parsed != Some(PositiveInfinity)
    ensures SaveOutcomeFor(parsed, dateText, previousDateError) == SaveOutcomeAsWritten(parsed, dateText, previousDateError)
  {
    ValidAmountAgreesOnNumbers(parsed);
  }

  /** Whatever the parser returns, a save that goes through hands on a finite amount
      greater than zero. */
  lemma SavedAmountIsPositive(parsed: Option<Double>, dateText: string, previousDateError: Option<FormError>)
    requires SaveOutcomeFor(parsed, dateText, previousDateError).saves
    ensures parsed.Some? && parsed.value.Finite? && parsed.value.value > 0.0
    ensures parsed != Some(NaN) && parsed != Some(PositiveInfinity)
  {
  }

  /** A save that goes through hands on the amount, the trimmed date and notes, and the
      status, then leaves the form. */
  function SaveEffects(amount: Double, dateText: string, paymentStatus: PaymentStatus, notes: string): seq<Effect> {
    [SaveInvoice(amount, Trim(dateText), paymentStatus, Trim(notes)), NavigateBack]
  }

  /** A saved date is empty exactly when the field was blank, and never starts or ends with
      whitespace; the same holds for the notes. */
  lemma SavedTextsAreTrimmed(amount: Double, dateText: string, paymentStatus: PaymentStatus, notes: string)
    ensures var e := SaveEffects(amount, dateText, paymentStatus, notes)[0];
      && (e.dateText == [] <==> IsBlank(dateText))
      && (e.notes == [] <==> IsBlank(notes))
      && (e.dateText != [] ==> !IsWhitespace(e.dateText[0]) && !IsWhitespace(e.dateText[|e.dateText| - 1]))
      && (e.notes != [] ==> !IsWhitespace(e.notes[0]) && !IsWhitespace(e.notes[|e.notes| - 1]))
  {
  }

  /** The state of `AddInvoiceScreen` and of `EditInvoiceScreen`, which differ only in how
      the fields start. */
  class InvoiceFormState {
    /** `String.toDoubleOrNull()`. */
    const toDoubleOrNull: string -> Option<Double>
    var amountText: string
    var dateText: string
    var notes: string
    var paymentStatus: PaymentStatus
    var amountError: Option<FormError>
    var dateError: Option<FormError>
    /** The callbacks made so far. */
    var effects: seq<Effect>

    /** The add form: empty texts, status "not paid", no errors. */
    constructor ForAdd(toDoubleOrNull: string -> Option<Double>)
      ensures this.toDoubleOrNull == toDoubleOrNull
      ensures amountText == "" && dateText == "" && notes == "" && paymentStatus == NotPaid
      ensures amountError == None && dateError == None && effects == []
    {
      this.toDoubleOrNull := toDoubleOrNull;
      amountText := "";
      dateText := "";
      notes := "";
      paymentStatus := NotPaid;
      amountError := None;
      dateError := None;
      effects := [];
    }

    /** The edit form: the fields start from the invoice being edited, with no errors. */
    constructor ForEdit(toDoubleOrNull: string -> Option<Double>, initialAmount: string,
                        initialDateText: string, initialPaymentStatus: PaymentStatus, initialNotes: string)
      ensures this.toDoubleOrNull == toDoubleOrNull
      ensures amountText == initialAmount && dateText == initialDateText
      ensures notes == initialNotes && paymentStatus == initialPaymentStatus
      ensures amountError == None && dateError == None && effects == []
    {
      this.toDoubleOrNull := toDoubleOrNull;
      amountText := initialAmount;
      dateText := initialDateText;
      notes := initialNotes;
      paymentStatus := initialPaymentStatus;
      amountError := None;
      dateError := None;
      effects := [];
    }

    /** `handleSave`, with the amount test corrected to accept only finite positive
        amounts. The fields are not changed. */
    method HandleSave()
      modifies this
      ensures amountText == old(amountText) && dateText == old(dateText)
      ensures notes == old(notes) && paymentStatus == old(paymentStatus)
      ensures var outcome := SaveOutcomeFor(toDoubleOrNull(amountText), dateText, old(dateError));
        && amountError == outcome.amountError
        && dateError == outcome.dateError
        && effects == old(effects)
          + if outcome.saves then SaveEffects(toDoubleOrNull(amountText).value, dateText, paymentStatus, notes) else []
    {
      var amount := toDoubleOrNull(amountText);
      if !(amount.Some? && amount.value.Finite? && amount.value.value > 0.0) {
        amountError := Some(InvalidAmount);
        return;
      } else {
        amountError := None;
      }

      if !IsBlank(dateText) && Utf16Length(dateText) < 8 {
        dateError := Some(DateFormat);
        return;
      } else {
        dateError := None;
      }

      effects := effects + [SaveInvoice(amount.value, Trim(dateText), paymentStatus, Trim(notes))];
      effects := effects + [NavigateBack];
    }

    method OnAmountChange(newAmount: string)
      modifies this
      ensures amountText == newAmount
      ensures dateText == old(dateText) && notes == old(notes) && paymentStatus == old(paymentStatus)
      ensures amountError == old(amountError) && dateError == old(dateError) && effects == old(effects)
    {
      amountText := newAmount;
    }

    method OnDateChange(newDate: string)
      modifies this
      ensures dateText == newDate
      ensures amountText == old(amountText) && notes == old(notes) && paymentStatus == old(paymentStatus)
      ensures amountError == old(amountError) && dateError == old(dateError) && effects == old(effects)
    {
      dateText := newDate;
    }

    method OnPaymentStatusChange(newStatus: PaymentStatus)
      modifies this
      ensures paymentStatus == newStatus
      ensures amountText == old(amountText) && dateText == old(dateText) && notes == old(notes)
      ensures amountError == old(amountError) && dateError == old(dateError) && effects == old(effects)
    {
      paymentStatus := newStatus;
    }

    method OnNotesChange(newNotes: string)
      modifies this
      ensures notes == newNotes
      ensures amountText == old(amountText) && dateText == old(dateText) && paymentStatus == old(paymentStatus)
      ensures amountError == old(amountError) && dateError == old(dateError) && effects == old(effects)
    {
      notes := newNotes;
    }
  }

  /** A new add form does not save until an amount is typed: its empty amount text parses to
      nothing. */
  method EmptyAddFormRejectsSave(toDoubleOrNull: string -> Option<Double>) returns (saved: bool, error: Option<FormError>)
    requires toDoubleOrNull("") == None
    ensures !saved && error == Some(InvalidAmount)
  {
    var form := new InvoiceFormState.ForAdd(toDoubleOrNull);
    form.HandleSave();
    saved := form.effects != [];
    error := form.amountError;
  }
}
