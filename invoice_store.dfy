/**
 * The invoice repository's documented contract, realised as an in-memory store over a
 * list: read the invoices of a category, read one invoice by id, add an invoice under an
 * id the caller guarantees to be new, replace the invoice with the same id (ignoring an
 * unknown id), and delete by id.
 */
module InvoiceStore {
  import opened Wrappers
  import opened Numbers
  import opened Sequences
  import opened Models

  /** No two invoices share an id. */
  predicate UniqueIds(s: seq<Invoice>) {
    forall i, j :: 0 <= i < j < |s| ==> s[i].id != s[j].id
  }

  /** Some invoice has the id. */
  predicate HasId(s: seq<Invoice>, id: Long) {
    exists i :: 0 <= i < |s| && s[i].id == id
  }

  function InCategory(categoryId: Long): Invoice -> bool {
    (inv: Invoice) => inv.categoryId == categoryId
  }

  function HasOtherInvoiceId(id: Long): Invoice -> bool {
    (inv: Invoice) => inv.id != id
  }

  /** The first invoice with the id, if any. */
  function FindInvoice(s: seq<Invoice>, id: Long): (r: Option<Invoice>)
    ensures r.None? <==> !HasId(s, id)
    ensures r.Some? ==> r.value in s && r.value.id == id
  {
    if s == [] then None
    else if s[0].id == id then Some(s[0])
    else
      var r := FindInvoice(s[1..], id);
      assert forall i :: 1 <= i < |s| ==> s[i] == s[1..][i - 1];
      r
  }

  /** With unique ids the invoice found is the one with that id. */
  lemma FindInvoiceUnique(s: seq<Invoice>, k: nat)
    requires UniqueIds(s) && k < |s|
    ensures FindInvoice(s, s[k].id) == Some(s[k])
  {
    var r := FindInvoice(s, s[k].id);
    var i :| 0 <= i < |s| && s[i] == r.value;
  }

  /** The list with the invoice that has `invoice.id` replaced by `invoice`, in place. */
  function ReplaceById(s: seq<Invoice>, invoice: Invoice): seq<Invoice> {
    seq(|s|, i requires 0 <= i < |s| => if s[i].id == invoice.id then invoice else s[i])
  }

  /** Replacing keeps the length, changes only the entry with the id, and keeps the ids. */
  lemma ReplaceByIdSpec(s: seq<Invoice>, invoice: Invoice)
    ensures |ReplaceById(s, invoice)| == |s|
    ensures forall i :: 0 <= i < |s| && s[i].id != invoice.id ==> ReplaceById(s, invoice)[i] == s[i]
    ensures forall i :: 0 <= i < |s| ==> ReplaceById(s, invoice)[i].id == s[i].id
    ensures UniqueIds(s) ==> UniqueIds(ReplaceById(s, invoice))
  {
  }

  /** Replacing an invoice whose id is absent changes nothing. */
  lemma ReplaceAbsentId(s: seq<Invoice>, invoice: Invoice)
    requires !HasId(s, invoice.id)
    ensures ReplaceById(s, invoice) == s
  {
  }

  class InMemoryInvoiceRepository {
    var invoices: seq<Invoice>

    /** The store never holds two invoices with one id. */
    predicate Valid()
      reads this
    {
      UniqueIds(invoices)
    }

    /** The store starts empty. */
    constructor ()
      ensures invoices == [] && Valid()
    {
      invoices := [];
    }

    /** `getInvoicesForCategory`: every invoice of the category, as often as the store holds
        it, in store order. */
    function GetInvoicesForCategory(categoryId: Long): (r: seq<Invoice>)
      reads this
      ensures forall inv :: inv in r <==> inv in invoices && inv.categoryId == categoryId
      ensures forall inv :: multiset(r)[inv] == if inv.categoryId == categoryId then multiset(invoices)[inv] else 0
      ensures IsSubsequence(r, invoices)
    {
      FilterCounts(invoices, InCategory(categoryId));
      FilterIsSubsequence(invoices, InCategory(categoryId));
      assert forall inv :: inv in invoices <==> multiset(invoices)[inv] > 0;
      Filter(invoices, InCategory(categoryId))
    }

    /** `getInvoiceById`: the invoice with the id, or null exactly when there is none. */
    function GetInvoiceById(id: Long): (r: Option<Invoice>)
      reads this
      ensures r.None? <==> !HasId(invoices, id)
      ensures r.Some? ==> r.value in invoices && r.value.id == id
    {
      FindInvoice(invoices, id)
    }

    /** `addInvoice`: appends an invoice whose id the caller guarantees is new; reading
        that id afterwards gives the invoice back. */
    method AddInvoice(invoice: Invoice)
      requires Valid() && !HasId(invoices, invoice.id)
      modifies this
      ensures invoices == old(invoices) + [invoice]
      ensures Valid()
      ensures GetInvoiceById(invoice.id) == Some(invoice)
    {
      invoices := invoices + [invoice];
      FindInvoiceUnique(invoices, |invoices| - 1);
    }

    /** `updateInvoice`: replaces the invoice with the same id; an unknown id is ignored. */
    method UpdateInvoice(invoice: Invoice)
      modifies this
      ensures invoices == ReplaceById(old(invoices), invoice)
      ensures old(Valid()) ==> Valid()
      ensures !HasId(old(invoices), invoice.id) ==> invoices == old(invoices)
      ensures HasId(old(invoices), invoice.id) && old(Valid()) ==> GetInvoiceById(invoice.id) == Some(invoice)
    {
      ReplaceByIdSpec(invoices, invoice);
      if !HasId(invoices, invoice.id) {
        ReplaceAbsentId(invoices, invoice);
      }
      ghost var before := invoices;
      invoices := ReplaceById(invoices, invoice);
      if HasId(before, invoice.id) {
        var k :| 0 <= k < |before| && before[k].id == invoice.id;
        if old(Valid()) {
          FindInvoiceUnique(invoices, k);
        }
      }
    }

    /** `deleteInvoice`: removes the invoice with the id; every other invoice stays, in
        order. */
    method DeleteInvoice(id: Long)
      modifies this
      ensures invoices == Filter(old(invoices), HasOtherInvoiceId(id))
      ensures !HasId(invoices, id)
      ensures old(Valid()) ==> Valid()
    {
      if Valid() {
        FilterIsSubsequence(invoices, HasOtherInvoiceId(id));
        SubsequenceKeepsUniqueIds(Filter(invoices, HasOtherInvoiceId(id)), invoices);
      }
      invoices := Filter(invoices, HasOtherInvoiceId(id));
    }
  }

  /** A subsequence of a list with unique ids has unique ids. */
  lemma {:induction false} SubsequenceKeepsUniqueIds(a: seq<Invoice>, b: seq<Invoice>)
    requires IsSubsequence(a, b) && UniqueIds(b)
    ensures UniqueIds(a)
    decreases |b|
  {
    if a != [] && b != [] {
      assert UniqueIds(b[1..]) by {
        forall i, j | 0 <= i < j < |b[1..]| ensures b[1..][i].id != b[1..][j].id {
          assert b[1..][i] == b[i + 1] && b[1..][j] == b[j + 1];
        }
      }
      if a[0] == b[0] {
        SubsequenceKeepsUniqueIds(a[1..], b[1..]);
        SubsequenceElements(a[1..], b[1..]);
        forall j | 0 < j < |a| ensures a[0].id != a[j].id {
          assert a[j] == a[1..][j - 1];
          assert a[j] in a[1..];
          var k :| 0 <= k < |b[1..]| && b[1..][k] == a[j];
          assert b[k + 1] == a[j];
        }
        forall i, j | 0 < i < j < |a| ensures a[i].id != a[j].id {
          assert a[i] == a[1..][i - 1] && a[j] == a[1..][j - 1];
        }
      } else {
        SubsequenceKeepsUniqueIds(a, b[1..]);
      }
    }
  }

  /** Every element of a subsequence is an element of the whole. */
  lemma {:induction false} SubsequenceElements(a: seq<Invoice>, b: seq<Invoice>)
    requires IsSubsequence(a, b)
    ensures forall x :: x in a ==> x in b
    decreases |b|
  {
    if a != [] && b != [] {
      if a[0] == b[0] {
        SubsequenceElements(a[1..], b[1..]);
        forall x | x in a ensures x in b {
          if x != a[0] {
            assert x in a[1..];
          }
        }
      } else {
        SubsequenceElements(a, b[1..]);
      }
    }
  }

  /** Deleting keeps every invoice with another id exactly as often as before, and deleting
      twice is deleting once. */
  lemma DeleteKeepsOthers(s: seq<Invoice>, id: Long)
    ensures forall inv: Invoice :: (inv.id != id
      ==> multiset(Filter(s, HasOtherInvoiceId(id)))[inv] == multiset(s)[inv])
    ensures Filter(Filter(s, HasOtherInvoiceId(id)), HasOtherInvoiceId(id)) == Filter(s, HasOtherInvoiceId(id))
  {
    FilterCounts(s, HasOtherInvoiceId(id));
    FilterIdempotent(s, HasOtherInvoiceId(id));
  }

  /** Adding an invoice shows it in its own category's list, last, and leaves every other
      category's list as it was. */
  lemma AddShowsInOwnCategory(s: seq<Invoice>, invoice: Invoice, categoryId: Long)
    ensures Filter(s + [invoice], InCategory(categoryId))
      == Filter(s, InCategory(categoryId)) + if invoice.categoryId == categoryId then [invoice] else []
  {
    FilterAppend(s, [invoice], InCategory(categoryId));
    assert [invoice][1..] == [];
  }
}
