/**
 * The domain records of the tax tracker: categories, invoices, the planned per-category
 * custom fields and invoice images, with the defaults their constructors give.
 */
module Models {
  import opened Wrappers
  import opened Numbers
  import opened Dates

  datatype PaymentStatus = PaidFull | NotPaid | PaidCredit

  /** Every payment status there is. */
  const AllPaymentStatuses: set<PaymentStatus> := {PaidFull, NotPaid, PaidCredit}

  /** The value type of a custom field. */
  datatype CustomFieldType = TextField | NumberField | DateField | BooleanField

  const AllCustomFieldTypes: set<CustomFieldType> := {TextField, NumberField, DateField, BooleanField}

  /** A category; without a description it has none (`null`). */
  datatype Category = Category(
    id: Long,
    name: string,
    colorHex: string,
    description: Option<string> := None)

  /** One field of a category's custom schema; not archived and at position 0 unless
      told otherwise. */
  datatype CustomFieldDefinition = CustomFieldDefinition(
    id: Long,
    categoryId: Long,
    name: string,
    fieldType: CustomFieldType,
    isRequired: bool,
    isArchived: bool := false,
    order: Int32 := 0)

  /** A single invoice; every optional part is absent unless given. */
  datatype Invoice = Invoice(
    id: Long,
    categoryId: Long,
    invoiceNumber: string,
    amount: Double,
    paymentStatus: PaymentStatus,
    dueDate: Option<LocalDate> := None,
    paymentDate: Option<LocalDate> := None,
    consumptionValue: Option<Double> := None,
    consumptionUnit: Option<string> := None,
    notes: Option<string> := None)

  /** The value of a custom field on one invoice. It is text whatever the field's type:
      the type only says how to read it. */
  datatype InvoiceCustomFieldValue = InvoiceCustomFieldValue(
    id: Long,
    invoiceId: Long,
    fieldDefinitionId: Long,
    value: string)

  /** A point on the time line, as `java.time.Instant` holds it. */
  datatype Instant = Instant(epochSecond: int, nano: nat)

  /** A photo attached to an invoice. Its creation time defaults to the clock's reading,
      which here is a parameter. */
  datatype InvoiceImage = InvoiceImage(
    id: Long,
    invoiceId: Long,
    uri: string,
    createdAt: Instant)

  /** There are exactly three payment statuses. */
  lemma PaymentStatusHasThreeValues(s: PaymentStatus)
    ensures s in AllPaymentStatuses
    ensures |AllPaymentStatuses| == 3
  {
  }

  /** There are exactly four custom field types. */
  lemma CustomFieldTypeHasFourValues(t: CustomFieldType)
    ensures t in AllCustomFieldTypes
    ensures |AllCustomFieldTypes| == 4
  {
  }

  /** A category made without a description has none. */
  lemma CategoryDefaults(id: Long, name: string, colorHex: string)
    ensures Category(id, name, colorHex).description == None
  {
  }

  /** A custom field is made not archived and at position 0. */
  lemma CustomFieldDefinitionDefaults(id: Long, categoryId: Long, name: string, t: CustomFieldType, isRequired: bool)
    ensures var f := CustomFieldDefinition(id, categoryId, name, t, isRequired);
      !f.isArchived && f.order == 0
  {
  }

  /** An invoice made from its required parts has no due date, payment date, consumption
      or notes. */
  lemma InvoiceDefaults(id: Long, categoryId: Long, number: string, amount: Double, status: PaymentStatus)
    ensures var inv := Invoice(id, categoryId, number, amount, status);
      && inv.dueDate == None && inv.paymentDate == None
      && inv.consumptionValue == None && inv.consumptionUnit == None
      && inv.notes == None
  {
  }
}
