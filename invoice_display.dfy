/**
 * The display rules of the invoice list and details screens: which view the list shows,
 * each invoice's title and status label, the optional due-date and notes lines, and the
 * delete confirmation the list keeps pending for one invoice at a time.
 */
module InvoiceDisplay {
  import opened Wrappers
  import opened Numbers
  import opened Text
  import opened Models
  import opened InvoiceStore
  import opened InvoiceList

  const TitlePrefix := "Invoice #"

  /** `invoiceNumber.ifBlank { "Invoice #$id" }`: the invoice number, unless it is blank. */
  function Title(invoice: InvoiceUi): (title: string)
    ensures !IsBlank(invoice.invoiceNumber) ==> title == invoice.invoiceNumber
    ensures IsBlank(invoice.invoiceNumber) ==> |title| > |TitlePrefix| && title[..|TitlePrefix|] == TitlePrefix
  {
    if IsBlank(invoice.invoiceNumber) then TitlePrefix + LongToString(invoice.id)
    else invoice.invoiceNumber
  }

  /** A title is never blank, and a fallback title names the invoice's own id. */
  lemma TitleNeverBlank(invoice: InvoiceUi)
    ensures !IsBlank(Title(invoice))
    ensures IsBlank(invoice.invoiceNumber) ==> ParseLong(Title(invoice)[|TitlePrefix|..]) == Some(invoice.id)
  {
    var title := Title(invoice);
    if IsBlank(invoice.invoiceNumber) {
      assert title[0] == 'I' && !IsWhitespace(title[0]);
      assert title[|TitlePrefix|..] == LongToString(invoice.id);
      LongRoundTrip(invoice.id);
    }
  }

  /** Two invoices without a number get the same title only when they have the same id. */
  lemma FallbackTitlesDistinguishIds(a: InvoiceUi, b: InvoiceUi)
    requires IsBlank(a.invoiceNumber) && IsBlank(b.invoiceNumber)
    requires Title(a) == Title(b)
    ensures a.id == b.id
  {
    TitleNeverBlank(a);
    TitleNeverBlank(b);
  }

  /** The label each payment status is shown with. */
  function StatusLabel(status: PaymentStatus): string {
    match status
    case PaidFull => "Paid in full"
    case NotPaid => "Not paid"
    case PaidCredit => "Paid with credit"
  }

  /** The details screen's status text: "Status: ", then the list's label. */
  function DetailsStatusText(status: PaymentStatus): string {
    "Status: " + StatusLabel(status)
  }

  /** Different statuses are shown with different labels. */
  lemma StatusLabelInjective(a: PaymentStatus, b: PaymentStatus)
    ensures StatusLabel(a) == StatusLabel(b) ==> a == b
  {
    if a != b {
      assert StatusLabel(a)[..3] != StatusLabel(b)[..3] || |StatusLabel(a)| != |StatusLabel(b)|;
    }
  }

  /** The details screen's status texts differ for different statuses, and each ends with
      the list's label. */
  lemma DetailsStatusTextInjective(a: PaymentStatus, b: PaymentStatus)
    ensures DetailsStatusText(a)[8..] == StatusLabel(a)
    ensures DetailsStatusText(a) == DetailsStatusText(b) ==> a == b
  {
    StatusLabelInjective(a, b);
  }

  /** `takeIf { it.isNotBlank() }`: notes are shown only when present and not blank. */
  predicate NotesShown(notes: Option<string>) {
    notes.Some? && !IsBlank(notes.value)
  }

  /** One line of an invoice's card or details; the amount's currency formatting is not
      modelled, so the amount line holds the value. */
  datatype Line =
    | TitleLine(text: string)
    | AmountLine(amount: Double)
    | StatusLine(text: string)
    | DueLine(text: string)
    | NotesHeading
    | NotesLine(text: string)

  /** The card of one invoice in the list: title, status, the due date and the notes when
      there are any, and the amount at the side. */
  function ItemLines(invoice: InvoiceUi): (lines: seq<Line>)
    ensures |lines| >= 3 && lines[0] == TitleLine(Title(invoice)) && lines[1] == StatusLine(StatusLabel(invoice.paymentStatus))
    ensures lines[|lines| - 1] == AmountLine(invoice.amount)
  {
    [TitleLine(Title(invoice)), StatusLine(StatusLabel(invoice.paymentStatus))]
      + DueLines("Due: ", invoice.dueDateText)
      + (if NotesShown(invoice.notes) then [NotesLine(invoice.notes.value)] else [])
      + [AmountLine(invoice.amount)]
  }

  /** The details card: title, amount, "Status: " text, then the due date and the notes
      section when there are any. */
  function DetailsLines(invoice: InvoiceUi): (lines: seq<Line>)
    ensures |lines| >= 3 && lines[0] == TitleLine(Title(invoice)) && lines[1] == AmountLine(invoice.amount)
    ensures lines[2] == StatusLine(DetailsStatusText(invoice.paymentStatus))
  {
    [TitleLine(Title(invoice)), AmountLine(invoice.amount), StatusLine(DetailsStatusText(invoice.paymentStatus))]
      + DueLines("Due date: ", invoice.dueDateText)
      + (if NotesShown(invoice.notes) then [NotesHeading, NotesLine(invoice.notes.value)] else [])
  }

  /** `dueDateText?.let { ... }`: one line with the prefix and the date, or none. */
  function DueLines(prefix: string, dueDateText: Option<string>): seq<Line> {
    match dueDateText
    case None => []
    case Some(text) => [DueLine(prefix + text)]
  }

  /** In lines made of a head, the optional due lines, the optional notes part and a tail,
      where neither head nor tail holds a due or notes line, every due line comes from the
      due part and every notes line from the notes part. */
  lemma OptionalParts(head: seq<Line>, due: seq<Line>, notes: seq<Line>, tail: seq<Line>)
    requires forall l :: l in head ==> !l.DueLine? && !l.NotesLine?
    requires forall l :: l in tail ==> !l.DueLine? && !l.NotesLine?
    requires forall l :: l in notes ==> !l.DueLine?
    requires forall l :: l in due ==> l.DueLine?
    ensures forall l :: l in head + due + notes + tail && l.DueLine? <==> l in due
    ensures forall l :: l in head + due + notes + tail && l.NotesLine? <==> l in notes && l.NotesLine?
  {
  }

  /** A card has a due line exactly when the invoice has a due-date text, and then it reads
      "Due: " and that text; it has a notes line exactly when the notes are present and not
      blank, and then it shows them. */
  lemma ItemOptionalLines(invoice: InvoiceUi)
    ensures (exists l :: l in ItemLines(invoice) && l.DueLine?) <==> invoice.dueDateText.Some?
    ensures forall l :: l in ItemLines(invoice) && l.DueLine? ==> l.text == "Due: " + invoice.dueDateText.value
    ensures (exists l :: l in ItemLines(invoice) && l.NotesLine?) <==> NotesShown(invoice.notes)
    ensures forall l :: l in ItemLines(invoice) && l.NotesLine? ==> l.text == invoice.notes.value && !IsBlank(l.text)
  {
    var head := [TitleLine(Title(invoice)), StatusLine(StatusLabel(invoice.paymentStatus))];
    var due := DueLines("Due: ", invoice.dueDateText);
    var notes := if NotesShown(invoice.notes) then [NotesLine(invoice.notes.value)] else [];
    var tail := [AmountLine(invoice.amount)];
    OptionalParts(head, due, notes, tail);
    if invoice.dueDateText.Some? {
      assert due[0] in due;
    }
    if NotesShown(invoice.notes) {
      assert notes[0] in notes;
    }
  }

  /** The details have a due line exactly when the invoice has a due-date text, and then it
      reads "Due date: " and that text; they have the notes heading and a notes line exactly
      when the notes are present and not blank, and then it shows them. */
  lemma DetailsOptionalLines(invoice: InvoiceUi)
    ensures (exists l :: l in DetailsLines(invoice) && l.DueLine?) <==> invoice.dueDateText.Some?
    ensures forall l :: l in DetailsLines(invoice) && l.DueLine? ==> l.text == "Due date: " + invoice.dueDateText.value
    ensures (exists l :: l in DetailsLines(invoice) && l.NotesLine?) <==> NotesShown(invoice.notes)
    ensures NotesHeading in DetailsLines(invoice) <==> NotesShown(invoice.notes)
    ensures forall l :: l in DetailsLines(invoice) && l.NotesLine? ==> l.text == invoice.notes.value && !IsBlank(l.text)
  {
    var head := [TitleLine(Title(invoice)), AmountLine(invoice.amount), StatusLine(DetailsStatusText(invoice.paymentStatus))];
    var due := DueLines("Due date: ", invoice.dueDateText);
    var notes := if NotesShown(invoice.notes) then [NotesHeading, NotesLine(invoice.notes.value)] else [];
    OptionalParts(head, due, notes, []);
    assert DetailsLines(invoice) == head + due + notes + [];
    if invoice.dueDateText.Some? {
      assert due[0] in due;
    }
    if NotesShown(invoice.notes) {
      assert notes[1] in notes;
    }
  }

  /** For a stored invoice, both screens show a due-date line exactly when it has a due
      date, and its notes exactly when they are present and not blank. */
  lemma StoredInvoiceLines(inv: Invoice)
    ensures (exists l :: l in ItemLines(ToUi(inv)) && l.DueLine?) <==> inv.dueDate.Some?
    ensures (exists l :: l in DetailsLines(ToUi(inv)) && l.DueLine?) <==> inv.dueDate.Some?
    ensures (exists l :: l in ItemLines(ToUi(inv)) && l.NotesLine?) <==> NotesShown(inv.notes)
    ensures (exists l :: l in DetailsLines(ToUi(inv)) && l.NotesLine?) <==> NotesShown(inv.notes)
  {
    ToUiPreserves(inv);
    ItemOptionalLines(ToUi(inv));
    DetailsOptionalLines(ToUi(inv));
  }

  /** What the list screen's body shows. */
  datatype ListView =
    | LoadingView
    | ErrorView(message: string)
    | EmptyView
    | ListContent(invoices: seq<InvoiceUi>)

  /** The list body's `when`: loading first, then an error, then an empty list, then the
      list itself. */
  function ViewFor(state: InvoiceListUiState): (v: ListView)
    ensures v == LoadingView <==> state.isLoading
    ensures v.ErrorView? <==> !state.isLoading && state.errorMessage.Some?
    ensures v.ErrorView? ==> v.message == state.errorMessage.value
    ensures v == EmptyView <==> !state.isLoading && state.errorMessage.None? && state.invoices == []
    ensures v.ListContent? ==> v.invoices == state.invoices && v.invoices != []
  {
    if state.isLoading then LoadingView
    else if state.errorMessage.Some? then ErrorView(state.errorMessage.value)
    else if state.invoices == [] then EmptyView
    else ListContent(state.invoices)
  }

  /** Loading the invoices of a category shows the spinner first, then the load error, or
      the empty state when the category has no invoices, or else exactly its invoices. */
  method LoadAndShow(repository: InMemoryInvoiceRepository, categoryId: Long, fails: bool)
    returns (before: ListView, after: ListView)
    ensures before == LoadingView
    ensures fails ==> after == ErrorView(LoadFailedMessage)
    ensures !fails && repository.GetInvoicesForCategory(categoryId) == [] ==> after == EmptyView
    ensures !fails && repository.GetInvoicesForCategory(categoryId) != []
      ==> after == ListContent(ToUiList(repository.GetInvoicesForCategory(categoryId)))
  {
    var viewModel := new InvoiceListViewModel(repository);
    before := ViewFor(viewModel.uiState);
    viewModel.LoadInvoices(categoryId, fails);
    after := ViewFor(viewModel.uiState);
  }

  /** What the list screen asks of its caller. */
  datatype ListEffect = DeleteInvoice(id: Long) | ShowSnackbar(message: string)

  const InvoiceDeletedMessage := "Invoice deleted"

  /** The list screen's delete confirmation: the invoice waiting for it, if any, and the
      callbacks made so far. */
  class InvoiceListDialog {
    var pendingDeleteInvoiceId: Option<Long>
    var effects: seq<ListEffect>

    constructor ()
      ensures pendingDeleteInvoiceId == None && effects == []
    {
      pendingDeleteInvoiceId := None;
      effects := [];
    }

    /** The dialog is shown while an invoice is pending. */
    function DialogShown(): bool
      reads this
    {
      pendingDeleteInvoiceId.Some?
    }

    /** A card's delete button only asks for confirmation: nothing is deleted yet. */
    method RequestDelete(id: Long)
      modifies this
      ensures pendingDeleteInvoiceId == Some(id) && effects == old(effects)
    {
      pendingDeleteInvoiceId := Some(id);
    }

    /** The dialog's "Delete": deletes exactly the pending invoice, closes the dialog and
        announces the deletion. */
    method ConfirmDelete()
      requires pendingDeleteInvoiceId.Some?
      modifies this
      ensures effects == old(effects) + [DeleteInvoice(old(pendingDeleteInvoiceId).value), ShowSnackbar(InvoiceDeletedMessage)]
      ensures pendingDeleteInvoiceId == None
    {
      var invoiceId := pendingDeleteInvoiceId.value;
      effects := effects + [DeleteInvoice(invoiceId)];
      pendingDeleteInvoiceId := None;
      effects := effects + [ShowSnackbar(InvoiceDeletedMessage)];
    }

    /** Dismissing the dialog or pressing "Cancel": closes it without deleting. */
    method DismissDialog()
      modifies this
      ensures pendingDeleteInvoiceId == None && effects == old(effects)
    {
      pendingDeleteInvoiceId := None;
    }
  }

  /** Asking to delete one invoice and then another before confirming deletes only the
      second; cancelling deletes nothing. */
  method DeleteRounds(first: Long, second: Long) returns (confirmed: seq<ListEffect>, cancelled: seq<ListEffect>)
    ensures confirmed == [DeleteInvoice(second), ShowSnackbar(InvoiceDeletedMessage)]
    ensures cancelled == []
  {
    var dialog := new InvoiceListDialog();
    dialog.RequestDelete(first);
    dialog.RequestDelete(second);
    dialog.ConfirmDelete();
    confirmed := dialog.effects;

    var other := new InvoiceListDialog();
    other.RequestDelete(first);
    other.DismissDialog();
    cancelled := other.effects;
  }
}
