/**
 * The invoice list view-model: the record each invoice is shown as, the snapshot the list
 * screen shows, and `loadInvoices`, whose synchronous start and launched block are one
 * method each. A repository call that throws is chosen by the `fails` parameter.
 */
module InvoiceList {
  import opened Wrappers
  import opened Numbers
  import opened Dates
  import opened Models
  import opened Sequences
  import opened InvoiceStore

  /** An invoice as the list and details screens show it. */
  datatype InvoiceUi = InvoiceUi(
    id: Long,
    invoiceNumber: string,
    amount: Double,
    paymentStatus: PaymentStatus,
    dueDateText: Option<string>,
    notes: Option<string>)

  datatype InvoiceListUiState = InvoiceListUiState(
    isLoading: bool := false,
    invoices: seq<InvoiceUi> := [],
    errorMessage: Option<string> := None)

  const LoadFailedMessage := "Failed to load invoices"

  /** `Invoice.toUi()`: the due date, when there is one, is shown as its ISO text. */
  function ToUi(inv: Invoice): InvoiceUi {
    InvoiceUi(inv.id, inv.invoiceNumber, inv.amount, inv.paymentStatus,
      match inv.dueDate
      case None => None
      case Some(d) => Some(DateText(d)),
      inv.notes)
  }

  /** `invoices.map { it.toUi() }`. */
  function ToUiList(s: seq<Invoice>): seq<InvoiceUi> {
    seq(|s|, i requires 0 <= i < |s| => ToUi(s[i]))
  }

  /** The shown record keeps the invoice's id, number, amount, status and notes; it has a
      due-date text exactly when the invoice has a due date, and that text is never
      shorter than `uuuu-MM-dd`. */
  lemma ToUiPreserves(inv: Invoice)
    ensures var u := ToUi(inv);
      && u.id == inv.id && u.invoiceNumber == inv.invoiceNumber && u.amount == inv.amount
      && u.paymentStatus == inv.paymentStatus && u.notes == inv.notes
      && (u.dueDateText.None? <==> inv.dueDate.None?)
      && (u.dueDateText.Some? ==> |u.dueDateText.value| >= 10)
  {
    if inv.dueDate.Some? {
      DateTextLength(inv.dueDate.value);
    }
  }

  class InvoiceListViewModel {
    const repository: InMemoryInvoiceRepository
    var uiState: InvoiceListUiState

    /** A new view-model shows the loading indicator. */
    constructor (repository: InMemoryInvoiceRepository)
      ensures this.repository == repository
      ensures uiState == InvoiceListUiState(isLoading := true)
    {
      this.repository := repository;
      uiState := InvoiceListUiState(isLoading := true);
    }

    /** The synchronous start of `loadInvoices`: loading, no error, the current list kept. */
    method StartLoadInvoices()
      modifies this
      ensures uiState == old(uiState).(isLoading := true, errorMessage := None)
    {
      uiState := uiState.(isLoading := true, errorMessage := None);
    }

    /** The launched block of `loadInvoices`: the category's invoices in store order, or
        an empty list and the load error. */
    method FinishLoadInvoices(categoryId: Long, fails: bool)
      modifies this
      ensures uiState == if fails
        then InvoiceListUiState(isLoading := false, invoices := [], errorMessage := Some(LoadFailedMessage))
        else InvoiceListUiState(isLoading := false,
          invoices := ToUiList(repository.GetInvoicesForCategory(categoryId)), errorMessage := None)
    {
      if fails {
        uiState := InvoiceListUiState(isLoading := false, invoices := [], errorMessage := Some(LoadFailedMessage));
        return;
      }
      var invoices := repository.GetInvoicesForCategory(categoryId);
      uiState := InvoiceListUiState(isLoading := false, invoices := ToUiList(invoices), errorMessage := None);
    }

    /** `loadInvoices`, its launched block run to completion. */
    method LoadInvoices(categoryId: Long, fails: bool)
      modifies this
      ensures !uiState.isLoading
      ensures fails ==> uiState.invoices == [] && uiState.errorMessage == Some(LoadFailedMessage)
      ensures !fails ==> (uiState.errorMessage == None
        && uiState.invoices == ToUiList(repository.GetInvoicesForCategory(categoryId)))
    {
      StartLoadInvoices();
      FinishLoadInvoices(categoryId, fails);
    }
  }

  /** A loaded list shows exactly the invoices of the category: every shown record comes
      from one of them, and each of them is shown. */
  lemma LoadedListIsTheCategory(s: seq<Invoice>, categoryId: Long)
    ensures var shown := ToUiList(Filter(s, InCategory(categoryId)));
      && (forall u :: u in shown ==> exists inv :: inv in s && inv.categoryId == categoryId && u == ToUi(inv))
      && (forall inv :: inv in s && inv.categoryId == categoryId ==> ToUi(inv) in shown)
  {
    var kept := Filter(s, InCategory(categoryId));
    var shown := ToUiList(kept);
    FilterCounts(s, InCategory(categoryId));
    assert forall inv :: inv in s <==> multiset(s)[inv] > 0;
    assert forall inv :: inv in kept <==> multiset(kept)[inv] > 0;
    forall u | u in shown
      ensures exists inv :: inv in s && inv.categoryId == categoryId && u == ToUi(inv)
    {
      var i :| 0 <= i < |shown| && shown[i] == u;
      assert kept[i] in kept;
    }
    forall inv | inv in s && inv.categoryId == categoryId
      ensures ToUi(inv) in shown
    {
      var i :| 0 <= i < |kept| && kept[i] == inv;
      assert shown[i] == ToUi(inv);
    }
  }
}
